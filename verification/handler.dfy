/** Requests: what reaches the strategy, and where watcher tokens are minted (handler.rs). */
module Handler {
  import opened Outcomes
  import opened Proto
  import opened World
  import opened Effects
  import opened OutsideCalls
  import opened Compositor
  import opened Courses
  import opened Strategy
  import Bits
  import Edid

  datatype Response =
    | Accepted
    | ConnectedTo(result: ConnectResult)
    | Reported(status: StrategyStatus)
    | Invalid(reason: RequestError)
    | Unauthorized
    | Failed(error: Error)

  /** The sender of a request, and the size in centimetres estimated for the mode it asks for. */
  datatype Sender = Sender(uid: nat, hCm: nat, vCm: nat)

  /** Root, or whoever owns the session in memory. */
  predicate MayControl(uid: nat, memory: Option<ConnectState>) {
    uid == 0 || (memory.Some? && memory.value.sessionUid == uid)
  }

  /** The request makes a daemon with this in its memory call out. */
  predicate CallsOut(req: Request, uid: nat, extraAllowedModes: seq<Mode>, memory: Option<ConnectState>) {
    && ValidateRequest(req, extraAllowedModes).Ok?
    && match req
       case Connect(_, _, dryRun, _) => !dryRun && memory.None?
       case Disconnect => MayControl(uid, memory) && memory.Some?
       case Status => false
       case Restore => MayControl(uid, memory)
  }

  /** The call with which a session is taken down. */
  predicate StartsDisconnect(memory: Option<ConnectState>, call: Call) {
    memory.Some? && call.Saves? && call.record == memory.value.(phase := Disconnecting)
  }

  /** The call with which the request begins to be served. */
  predicate StartsRequest(req: Request, uid: nat, memory: Option<ConnectState>, call: Call) {
    match req
    case Connect(_, _, _, _) => call.Discovers? && call.uid == uid
    case Disconnect => StartsDisconnect(memory, call)
    case Status => false
    case Restore => call.Loads?
  }

  /** What serving a request has amounted to. */
  datatype Doing =
    | ToConnect(edid: seq<Bits.byte>, course: Course, connected: Result<ConnectResult, Error>)
    | ToDisconnect(leaving: Leaving, done: Result<(), Error>)
    | ToRestore(restoring: Restoring, done: Result<(), Error>)
    | Nothing

  function ConnectResponse(connected: Result<ConnectResult, Error>): Response {
    if connected.Ok? then ConnectedTo(connected.value) else Failed(connected.error)
  }

  function ControlResponse(done: Result<(), Error>): Response { if done.Ok? then Accepted else Failed(done.error) }

  /** A request that has passed validation and what is answered to it; what it asks for is what is done. */
  ghost predicate Serves(t: seq<Moment>, t': seq<Moment>, memory: Option<ConnectState>, settings: Settings, uid: nat,
                         req: Request, d: Doing, answer: Response) {
    match req
    case Connect(mode, device, dryRun, exclusive) =>
      if dryRun then t' == t && answer == Accepted
      else
        && d.ToConnect? && answer == ConnectResponse(d.connected)
        && Connects(t, t', memory, ConnectParams(mode, device, exclusive, uid), settings, d.edid, d.course, d.connected)
    case Disconnect =>
      if !MayControl(uid, memory) then t' == t && answer == Unauthorized
      else
        && d.ToDisconnect? && answer == ControlResponse(d.done)
        && Disconnects(t, t', memory, d.leaving, d.done)
    case Status =>
      && t' == t
      && answer == Reported(match memory
                            case None => StrategyStatus(Disconnected, false, None)
                            case Some(c) => StrategyStatus(c.phase, c.phase.Connected?, Some((c.At(), c.mode))))
    case Restore =>
      if !MayControl(uid, memory) then t' == t && answer == Unauthorized
      else
        && d.ToRestore? && answer == ControlResponse(d.done)
        && d.restoring.Goes(t, t', memory.Some?) && d.done == d.restoring.Answer()
  }

  /** Any request and what is answered to it. */
  ghost predicate Answers(t: seq<Moment>, t': seq<Moment>, memory: Option<ConnectState>, settings: Settings,
                          extraAllowedModes: seq<Mode>, uid: nat, req: Request, d: Doing, answer: Response) {
    var valid := ValidateRequest(req, extraAllowedModes);
    if valid.Err? then t' == t && answer == Invalid(valid.error)
    else Serves(t, t', memory, settings, uid, req, d, answer)
  }

  class RealHandler {
    const strategy: KWinStrategy
    const extraAllowedModes: seq<Mode>
    var watcherGeneration: nat

    constructor (strategy: KWinStrategy, extraAllowedModes: seq<Mode>)
      ensures this.strategy == strategy && this.extraAllowedModes == extraAllowedModes && watcherGeneration == 0
    {
      this.strategy, this.extraAllowedModes, watcherGeneration := strategy, extraAllowedModes, 0;
    }

    /** The request is to set a session up, and will be tried. */
    predicate IsAttempt(req: Request) {
      req.Connect? && !req.dryRun && ValidateRequest(req, extraAllowedModes).Ok?
    }

    /** The request is to take the session down, and will be tried. */
    predicate IsPermitted(req: Request, uid: nat, memory: Option<ConnectState>) {
      (req.Disconnect? || req.Restore?) && MayControl(uid, memory)
    }

    /** A connect that has passed validation; its success mints a new token. */
    method HandleConnect(params: ConnectParams, hCm: nat, vCm: nat) returns (r: Fate<Response>, ghost d: Doing)
      requires strategy.Idle() && InRange(params.mode)
      modifies this, strategy, strategy.outside
      ensures r.Died? ==> strategy.outside.Perished()
      ensures strategy.outside.Steady() && strategy.outside.Passed()
      ensures r.Lived? ==> strategy.Idle()
      ensures old(strategy.cache).None? ==>
                IsDiscovery(strategy.outside.trail, |old(strategy.outside.trail)|, params.requesterUid)
      ensures r.Lived? ==> d.ToConnect?
      ensures r.Lived? ==> r.value == ConnectResponse(d.connected)
      ensures r.Lived? ==>
                Connects(old(strategy.outside.trail), strategy.outside.trail, old(strategy.cache), params,
                         strategy.Configured(), d.edid, d.course, d.connected)
      ensures r.Lived? && old(strategy.cache).None? ==> strategy.cache == d.course.Memory()
      ensures r.Lived? ==> watcherGeneration == old(watcherGeneration) + if r.value.ConnectedTo? then 1 else 0
      ensures r.Lived? && r.value.ConnectedTo? ==>
                strategy.Serves(params, d.edid, r.value.result, d.course.sequel.venture.attempt)
      ensures r.Lived? && r.value.ConnectedTo? ==> Edid.IsBlock(d.edid, params.mode, hCm, vCm)
    {
      d := *;
      var connected;
      ghost var edid, course;
      connected, edid, course :- strategy.Connect(params, hCm, vCm);
      d := ToConnect(edid, course, connected);
      if connected.Err? {
        return Lived(Failed(connected.error)), d;
      }
      watcherGeneration := watcherGeneration + 1;
      r := Lived(ConnectedTo(connected.value));
    }

    /** An authorized disconnect; a new token is minted before it is tried. */
    method HandleDisconnect() returns (r: Fate<Response>, ghost d: Doing)
      requires strategy.Ready()
      modifies this, strategy, strategy.outside
      ensures r.Died? ==> strategy.outside.Perished()
      ensures strategy.outside.Steady() && strategy.outside.Passed()
      ensures r.Lived? ==> strategy.Ready() && (old(strategy.Idle()) ==> strategy.Idle())
      ensures watcherGeneration == old(watcherGeneration) + 1
      ensures old(strategy.cache).Some? ==>
                && |strategy.outside.trail| > |old(strategy.outside.trail)|
                && StartsDisconnect(old(strategy.cache), strategy.outside.trail[|old(strategy.outside.trail)|].call)
      ensures r.Lived? ==> d.ToDisconnect?
      ensures r.Lived? ==> r.value == ControlResponse(d.done)
      ensures r.Lived? ==>
                Disconnects(old(strategy.outside.trail), strategy.outside.trail, old(strategy.cache), d.leaving, d.done)
      ensures r.Lived? && old(strategy.cache).Some? ==>
                var c := old(strategy.cache).value.(phase := Disconnecting);
                strategy.cache == d.leaving.Memory(c, old(strategy.cache))
      ensures r == Lived(Accepted) ==> strategy.cache.None? && strategy.Restored()
    {
      d := *;
      watcherGeneration := watcherGeneration + 1;
      var done;
      ghost var leaving;
      done, leaving :- strategy.Disconnect();
      d := ToDisconnect(leaving, done);
      r := Lived(if done.Ok? then Accepted else Failed(done.error));
    }

    /** An authorized restore; a new token is minted before it is tried. */
    method HandleRestore() returns (r: Fate<Response>, ghost d: Doing)
      requires strategy.Ready()
      modifies this, strategy, strategy.outside
      ensures r.Died? ==> strategy.outside.Perished()
      ensures strategy.outside.Steady() && strategy.outside.Passed()
      ensures r.Lived? ==> strategy.Ready()
      ensures r.Lived? && old(strategy.Idle()) && strategy.outside.breaks == old(strategy.outside.breaks) ==>
                strategy.Idle()
      ensures watcherGeneration == old(watcherGeneration) + 1
      ensures |strategy.outside.trail| > |old(strategy.outside.trail)|
      ensures strategy.outside.trail[|old(strategy.outside.trail)|].call.Loads?
      ensures r.Lived? ==> d.ToRestore?
      ensures r.Lived? ==> r.value == ControlResponse(d.done)
      ensures r.Lived? ==>
                d.restoring.Goes(old(strategy.outside.trail), strategy.outside.trail, old(strategy.cache).Some?)
      ensures r.Lived? ==> d.done == d.restoring.Answer()
      ensures r.Lived? ==> strategy.cache == d.restoring.Memory(old(strategy.cache))
      ensures r == Lived(Accepted) ==> strategy.Restored() || strategy.Adopted(old(strategy.outside.world.journal))
    {
      d := *;
      watcherGeneration := watcherGeneration + 1;
      var done;
      ghost var restoring;
      done, restoring :- strategy.Restore();
      d := ToRestore(restoring, done);
      r := Lived(if done.Ok? then Accepted else Failed(done.error));
    }

    /** A request that has passed validation. */
    method HandleValid(sender: Sender, req: Request) returns (r: Fate<Response>, ghost d: Doing)
      requires strategy.Ready() && (IsAttempt(req) ==> strategy.Idle())
      requires ValidateRequest(req, extraAllowedModes).Ok?
      modifies this, strategy, strategy.outside
      ensures r.Died? ==> strategy.outside.Perished()
      ensures strategy.outside.Steady() && strategy.outside.Passed()
      ensures r.Lived? ==> strategy.Ready()
      ensures r.Lived? && old(strategy.Idle()) && strategy.outside.breaks == old(strategy.outside.breaks) ==>
                strategy.Idle()
      ensures CallsOut(req, sender.uid, extraAllowedModes, old(strategy.cache)) ==>
                && |strategy.outside.trail| > |old(strategy.outside.trail)|
                && StartsRequest(req, sender.uid, old(strategy.cache),
                                 strategy.outside.trail[|old(strategy.outside.trail)|].call)
      ensures !IsAttempt(req) && !IsPermitted(req, sender.uid, old(strategy.cache)) ==>
                strategy.cache == old(strategy.cache) && strategy.outside.world == old(strategy.outside.world)
      ensures r.Lived? ==>
                Serves(old(strategy.outside.trail), strategy.outside.trail, old(strategy.cache), strategy.Configured(),
                       sender.uid, req, d, r.value)
      ensures r.Lived? ==>
                watcherGeneration
                == old(watcherGeneration)
                   + if r.value.ConnectedTo? || IsPermitted(req, sender.uid, old(strategy.cache)) then 1 else 0
      ensures r.Lived? && r.value.ConnectedTo? ==> req.Connect? && d.ToConnect?
      ensures r.Lived? && r.value.ConnectedTo? ==>
                strategy.Serves(ConnectParams(req.mode, req.device, req.exclusive, sender.uid), d.edid, r.value.result,
                                d.course.sequel.venture.attempt)
      ensures r.Lived? && r.value.ConnectedTo? ==> Edid.IsBlock(d.edid, req.mode, sender.hCm, sender.vCm)
      ensures r == Lived(Accepted) && req.Disconnect? ==> strategy.cache.None? && strategy.Restored()
      ensures r == Lived(Accepted) && req.Restore? ==>
                strategy.Restored() || strategy.Adopted(old(strategy.outside.world.journal))
    {
      d := Nothing;
      if (req.Disconnect? || req.Restore?) && !strategy.IsAuthorized(sender.uid) {
        return Lived(Unauthorized), d;
      }
      match req
      case Connect(mode, device, dryRun, exclusive) =>
        if dryRun {
          return Lived(Accepted), d;
        }
        r, d := HandleConnect(ConnectParams(mode, device, exclusive, sender.uid), sender.hCm, sender.vCm);
      case Disconnect =>
        r, d := HandleDisconnect();
      case Status =>
        var status := strategy.Status();
        r := Lived(Reported(status));
      case Restore =>
        r, d := HandleRestore();
    }

    /**
     * `handle`.  Invalid and unauthorized requests and dry runs change nothing.  A new token is minted
     * exactly when a connect has succeeded, or before a disconnect or restore is tried.
     */
    method Handle(sender: Sender, req: Request) returns (r: Fate<Response>, ghost d: Doing)
      requires strategy.Ready() && (IsAttempt(req) ==> strategy.Idle())
      modifies this, strategy, strategy.outside
      ensures r.Died? ==> strategy.outside.Perished()
      ensures strategy.outside.Steady() && strategy.outside.Passed()
      ensures r.Lived? ==> strategy.Ready()
      ensures r.Lived? && old(strategy.Idle()) && strategy.outside.breaks == old(strategy.outside.breaks) ==>
                strategy.Idle()
      ensures CallsOut(req, sender.uid, extraAllowedModes, old(strategy.cache)) ==>
                && |strategy.outside.trail| > |old(strategy.outside.trail)|
                && StartsRequest(req, sender.uid, old(strategy.cache),
                                 strategy.outside.trail[|old(strategy.outside.trail)|].call)
      ensures ValidateRequest(req, extraAllowedModes).Err? ==> r.Lived?
      ensures !IsAttempt(req) && !IsPermitted(req, sender.uid, old(strategy.cache)) ==>
                strategy.cache == old(strategy.cache) && strategy.outside.world == old(strategy.outside.world)
      ensures r.Lived? ==>
                Answers(old(strategy.outside.trail), strategy.outside.trail, old(strategy.cache), strategy.Configured(),
                        extraAllowedModes, sender.uid, req, d, r.value)
      ensures r.Lived? ==>
                watcherGeneration
                == old(watcherGeneration)
                   + if r.value.ConnectedTo? || IsPermitted(req, sender.uid, old(strategy.cache)) then 1 else 0
      ensures r.Lived? && r.value.ConnectedTo? ==> req.Connect? && d.ToConnect?
      ensures r.Lived? && r.value.ConnectedTo? ==>
                strategy.Serves(ConnectParams(req.mode, req.device, req.exclusive, sender.uid), d.edid, r.value.result,
                                d.course.sequel.venture.attempt)
      ensures r.Lived? && r.value.ConnectedTo? ==> Edid.IsBlock(d.edid, req.mode, sender.hCm, sender.vCm)
      ensures r == Lived(Accepted) && req.Disconnect? ==> strategy.cache.None? && strategy.Restored()
      ensures r == Lived(Accepted) && req.Restore? ==>
                strategy.Restored() || strategy.Adopted(old(strategy.outside.world.journal))
    {
      var valid := ValidateRequest(req, extraAllowedModes);
      if valid.Err? {
        return Lived(Invalid(valid.error)), Nothing;
      }
      r, d := HandleValid(sender, req);
    }
  }
}
