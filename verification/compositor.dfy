/** Finding the compositor and sending it arguments (strategy/kwin/mod.rs, strategy/kwin/kscreen.rs). */
module Compositor {
  import opened Outcomes
  import opened Layout
  import opened Effects
  import opened OutsideCalls

  /** The candidates whose outputs could be listed. */
  function Answering(candidates: seq<KWinEnv>, answers: seq<Result<string, Error>>): (c: seq<KWinEnv>)
    requires |candidates| == |answers|
  {
    if candidates == [] then []
    else
      var n := |candidates| - 1;
      Answering(candidates[..n], answers[..n]) + if answers[n].Ok? then [candidates[n]] else []
  }

  /** Nothing listed: the last error; more than one: ambiguous. */
  function Resolution(candidates: seq<KWinEnv>, answers: seq<Result<string, Error>>): Result<KWinEnv, Error>
    requires |candidates| == |answers|
  {
    var successes := Answering(candidates, answers);
    if candidates == [] then Err(CompositorNotFound)
    else if successes == [] then
      var last := answers[|answers| - 1];
      if last.Err? then Err(last.error) else Err(CompositorNotFound)
    else if |successes| == 1 then Ok(successes[0])
    else Err(AmbiguousCompositor)
  }

  /** This candidate answered and no other did. */
  ghost predicate AnswersAlone(answers: seq<Result<string, Error>>, i: int) {
    0 <= i < |answers| && answers[i].Ok? && forall j | 0 <= j < |answers| && j != i :: answers[j].Err?
  }

  lemma {:induction false} NoneAnswers(candidates: seq<KWinEnv>, answers: seq<Result<string, Error>>)
    requires |candidates| == |answers|
    ensures Answering(candidates, answers) == [] <==> forall j | 0 <= j < |answers| :: answers[j].Err?
  {
    if candidates != [] {
      var n := |candidates| - 1;
      NoneAnswers(candidates[..n], answers[..n]);
    }
  }

  lemma {:induction false} OneAnswers(candidates: seq<KWinEnv>, answers: seq<Result<string, Error>>, i: int)
    requires |candidates| == |answers| && AnswersAlone(answers, i)
    ensures Answering(candidates, answers) == [candidates[i]]
  {
    var n := |candidates| - 1;
    if i == n {
      NoneAnswers(candidates[..n], answers[..n]);
    } else {
      OneAnswers(candidates[..n], answers[..n], i);
    }
  }

  lemma {:induction false} OnlyAnswer(candidates: seq<KWinEnv>, answers: seq<Result<string, Error>>) returns (i: nat)
    requires |candidates| == |answers| && |Answering(candidates, answers)| == 1
    ensures AnswersAlone(answers, i)
  {
    var n := |candidates| - 1;
    if answers[n].Ok? {
      NoneAnswers(candidates[..n], answers[..n]);
      assert forall j | 0 <= j < n :: answers[..n][j].Err?;
      i := n;
    } else {
      i := OnlyAnswer(candidates[..n], answers[..n]);
      assert forall j | 0 <= j < n :: answers[..n][j] == answers[j];
    }
  }

  /** A compositor is chosen exactly when it is the only candidate that answered. */
  lemma ResolutionIsUnique(candidates: seq<KWinEnv>, answers: seq<Result<string, Error>>)
    requires |candidates| == |answers|
    ensures Resolution(candidates, answers).Ok? <==> exists i :: AnswersAlone(answers, i)
    ensures forall i | AnswersAlone(answers, i) :: Resolution(candidates, answers) == Ok(candidates[i])
  {
    NoneAnswers(candidates, answers);
    if |Answering(candidates, answers)| == 1 {
      var i := OnlyAnswer(candidates, answers);
    }
    forall i | AnswersAlone(answers, i)
      ensures Resolution(candidates, answers) == Ok(candidates[i])
    {
      OneAnswers(candidates, answers, i);
    }
  }

  /** Two candidates that answered make it ambiguous; if none did, the last error counts. */
  lemma ResolutionFails(candidates: seq<KWinEnv>, answers: seq<Result<string, Error>>)
    requires |candidates| == |answers|
    ensures (exists i, j :: 0 <= i < j < |answers| && answers[i].Ok? && answers[j].Ok?) ==>
              Resolution(candidates, answers) == Err(AmbiguousCompositor)
    ensures answers != [] && (forall j | 0 <= j < |answers| :: answers[j].Err?) ==>
              Resolution(candidates, answers) == Err(answers[|answers| - 1].error)
    ensures answers == [] ==> Resolution(candidates, answers) == Err(CompositorNotFound)
  {
    NoneAnswers(candidates, answers);
    if |Answering(candidates, answers)| == 1 {
      var i := OnlyAnswer(candidates, answers);
    }
  }

  /** The last calls were listings, with these answers; before them there were this many moments. */
  ghost predicate Answered(trail: seq<Moment>, before: nat, answers: seq<Result<string, Error>>)
    decreases |answers|
  {
    && |trail| == before + |answers|
    && (answers != [] ==>
          var n, k := |trail| - 1, |answers| - 1;
          && trail[n].call.Lists? && trail[n].call.listed == Lived(answers[k])
          && Answered(trail[..n], before, answers[..k]))
  }

  lemma AnsweredOnce(trail: seq<Moment>, before: nat, answers: seq<Result<string, Error>>,
                     m: Moment, a: Result<string, Error>)
    requires Answered(trail, before, answers) && m.call.Lists? && m.call.listed == Lived(a)
    ensures Answered(trail + [m], before, answers + [a])
  {
    assert (trail + [m])[..|trail|] == trail && (answers + [a])[..|answers|] == answers;
  }

  /** One more listing, whatever it says. */
  method Probe(outside: Outside, env: KWinEnv, ghost before: nat, ghost answers: seq<Result<string, Error>>)
    returns (r: Outcome<string>)
    requires outside.Steady() && Answered(outside.trail, before, answers)
    modifies outside
    ensures r.Died? ==> outside.Perished()
    ensures outside.Kept()
    ensures r.Lived? ==> Answered(outside.trail, before, answers + [r.value])
    ensures outside.faults == old(outside.faults) + if Succeeded(r) then 0 else 1
  {
    r := outside.ListOutputs(env);
    if r.Lived? {
      AnsweredOnce(old(outside.trail), before, answers, outside.trail[|outside.trail| - 1], r.value);
    }
  }

  lemma AnsweringGrows(candidates: seq<KWinEnv>, answers: seq<Result<string, Error>>, i: nat,
                       a: Result<string, Error>)
    requires |answers| == i < |candidates|
    ensures Answering(candidates[..i + 1], answers + [a])
            == Answering(candidates[..i], answers) + if a.Ok? then [candidates[i]] else []
  {
    assert candidates[..i + 1][..i] == candidates[..i] && (answers + [a])[..i] == answers;
  }

  /** `resolve_candidates`: probes the candidates in turn, one listing each. */
  method ResolveCandidates(outside: Outside, candidates: seq<KWinEnv>)
    returns (r: Outcome<KWinEnv>, ghost answers: seq<Result<string, Error>>)
    requires outside.Steady()
    modifies outside
    ensures r.Died? ==> outside.Perished()
    ensures outside.Kept()
    ensures r.Lived? ==> |answers| == |candidates| && r.value == Resolution(candidates, answers)
    ensures r.Lived? ==> Answered(outside.trail, |old(outside.trail)|, answers)
  {
    answers := [];
    if candidates == [] {
      return Lived(Err(CompositorNotFound)), answers;
    }
    var successes, lastError := [], None;
    for i := 0 to |candidates|
      invariant outside.Kept()
      invariant |answers| == i && successes == Answering(candidates[..i], answers)
      invariant successes == [] && i > 0 ==> lastError.Some? && answers[i - 1] == Err(lastError.value)
      invariant Answered(outside.trail, |old(outside.trail)|, answers)
    {
      var listed :- Probe(outside, candidates[i], |old(outside.trail)|, answers);
      match listed {
        case Ok(_) => successes := successes + [candidates[i]];
        case Err(error) => lastError := Some(error);
      }
      AnsweringGrows(candidates, answers, i, listed);
      answers := answers + [listed];
    }
    assert candidates[..|candidates|] == candidates;
    match |successes|
    case 0 => r := Lived(Err(lastError.value));
    case 1 => r := Lived(Ok(successes[0]));
    case _ => r := Lived(Err(AmbiguousCompositor));
  }

  /** After the nth call the candidates gave these answers, and this is what came of it. */
  ghost predicate Probed(trail: seq<Moment>, n: nat, candidates: seq<KWinEnv>,
                         answers: seq<Result<string, Error>>, r: Result<KWinEnv, Error>) {
    |answers| == |candidates| && Answered(trail, n + 1, answers) && Resolution(candidates, answers) == r
  }

  /** From the nth call on, candidates were discovered and each of them was probed, and this is what came of it. */
  ghost predicate ResolvedTo(trail: seq<Moment>, n: nat, uid: nat, r: Result<KWinEnv, Error>) {
    && n < |trail| && trail[n].call.Discovers? && trail[n].call.uid == uid && trail[n].call.found.Lived?
    && var found := trail[n].call.found.value;
    if found.Err? then |trail| == n + 1 && r == Err(found.error)
    else exists answers :: Probed(trail, n, found.value, answers, r)
  }

  /** The nth call is the discovery of this user's sessions. */
  ghost predicate IsDiscovery(trail: seq<Moment>, n: nat, uid: nat) {
    n < |trail| && trail[n].call.Discovers? && trail[n].call.uid == uid
  }

  lemma {:induction false} NoneFailed(trail: seq<Moment>, before: nat, answers: seq<Result<string, Error>>)
    requires Answered(trail, before, answers) && Faultless(trail, before)
    ensures forall j | 0 <= j < |answers| :: answers[j].Ok?
  {
    if answers != [] {
      var n, k := |trail| - 1, |answers| - 1;
      FaultlessSoFar(trail[..n], trail, before, before);
      NoneFailed(trail[..n], before, answers[..k]);
      assert !IsFaultAt(trail, n);
      forall j | 0 <= j < |answers|
        ensures answers[j].Ok?
      {
        assert j < k ==> answers[..k][j] == answers[j];
      }
    }
  }

  /** If none of these calls failed and one candidate was found, that one has been chosen. */
  lemma ResolvedWithoutFault(trail: seq<Moment>, n: nat, uid: nat, r: Result<KWinEnv, Error>)
    requires ResolvedTo(trail, n, uid, r) && Faultless(trail, n)
    ensures r.Ok? && trail[n].call.found.value.Ok? && trail[n].call.found.value.value == [r.value]
  {
    var candidates := trail[n].call.found.value.value;
    var answers :| Probed(trail, n, candidates, answers, r);
    assert !IsFaultAt(trail, n);
    FaultlessSoFar(trail, trail, n, n + 1);
    NoneFailed(trail, n + 1, answers);
    assert AnswersAlone(answers, 0);
    ResolutionIsUnique(candidates, answers);
  }

  method ResolveCompositor(outside: Outside, uid: nat) returns (r: Outcome<KWinEnv>)
    requires outside.Steady()
    modifies outside
    ensures r.Died? ==> outside.Perished()
    ensures outside.Kept()
    ensures IsDiscovery(outside.trail, |old(outside.trail)|, uid)
    ensures r.Lived? ==> ResolvedTo(outside.trail, |old(outside.trail)|, uid, r.value)
    ensures outside.faults == old(outside.faults) ==> Succeeded(r)
  {
    var candidates :- outside.Discover(uid);
    if candidates.Err? {
      return Lived(Err(candidates.error));
    }
    ghost var answers;
    r, answers := ResolveCandidates(outside, candidates.value);
    if r.Lived? {
      assert Probed(outside.trail, |old(outside.trail)|, candidates.value, answers, r.value);
    }
    if r.Lived? && outside.faults == old(outside.faults) {
      SameFaultsMeansFaultless(outside.trail, |old(outside.trail)|);
      ResolvedWithoutFault(outside.trail, |old(outside.trail)|, uid, r.value);
    }
  }

  /** One pass of arguments that switch on nothing but outputs of the baseline and of the session. */
  method RunOnce(outside: Outside, env: KWinEnv, args: seq<Arg>) returns (r: Outcome<()>)
    requires outside.Steady() && outside.world.journal.Some?
    requires LightsOnly(args, outside.baseline.Keys + {outside.world.journal.value.port})
    modifies outside
    ensures r.Died? ==> outside.Perished()
    ensures outside.Worked()
    ensures |outside.trail| == |old(outside.trail)| + 1 && outside.trail[|old(outside.trail)|].call == Runs(args, r)
    ensures RanPartly(old(outside.world.outputs), args, outside.world.outputs)
    ensures Succeeded(r) ==> RanFully(old(outside.world.outputs), args, outside.world.outputs)
    ensures outside.world.outputs.Keys == old(outside.world.outputs.Keys)
    ensures outside.faults == old(outside.faults) + if Succeeded(r) then 0 else 1
  {
    r := outside.Run(env, args);
  }

  /** `run_twice`: what the first pass reports is ignored, unless the process dies in it. */
  method RunTwice(outside: Outside, env: KWinEnv, args: seq<Arg>) returns (r: Outcome<()>, ghost first: Outcome<()>)
    requires outside.Steady() && outside.world.journal.Some?
    requires LightsOnly(args, outside.baseline.Keys + {outside.world.journal.value.port})
    modifies outside
    ensures r.Died? ==> outside.Perished()
    ensures outside.Worked()
    ensures first.Died? ==> r.Died?
    ensures first.Lived? ==>
              var n := |old(outside.trail)|;
              && |outside.trail| == n + 2
              && outside.trail[n].call == Runs(args, first) && outside.trail[n + 1].call == Runs(args, r)
    ensures RanAtMostTwice(old(outside.world.outputs), args, outside.world.outputs)
    ensures outside.world.outputs.Keys == old(outside.world.outputs.Keys)
    ensures outside.faults == old(outside.faults) ==> Succeeded(r)
    ensures Succeeded(r) ==>
              exists between :: RanTwice(old(outside.world.outputs), args, between, outside.world.outputs)
  {
    var pass := RunOnce(outside, env, args);
    first := pass;
    if pass.Died? {
      return Died, first;
    }
    ghost var between := outside.world.outputs;
    r := RunOnce(outside, env, args);
    assert Succeeded(r) ==> RanTwice(old(outside.world.outputs), args, between, outside.world.outputs);
  }
}
