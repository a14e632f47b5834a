/**
 * The courses that connecting, disconnecting and restoring take (strategy/kwin/mod.rs): for each operation which
 * calls it makes, step by step, and what it answers by what these calls have answered.
 */
module Courses {
  import opened Outcomes
  import opened Proto
  import opened KScreen
  import opened Layout
  import opened World
  import opened Telling
  import opened Waiting
  import opened Effects
  import opened OutsideCalls
  import opened Compositor
  import opened Cards
  import Bits
  import Sysfs

  datatype ConnectParams = ConnectParams(mode: Mode, device: Option<string>, exclusive: bool, requesterUid: nat)

  datatype ConnectResult = ConnectResult(card: string, connector: string, mode: Mode)

  /** What was configured: how often the outputs are listed before the wait is given up, and two defaults. */
  datatype Settings = Settings(polls: nat, disableOutputs: seq<string>, device: Option<string>)

  /** The last call of a trail, and the moment to which it led. */
  function Last(trail: seq<Moment>): Moment
    requires trail != []
  {
    trail[|trail| - 1]
  }

  /** The steps of the operations. */
  datatype Step = Resolving | Selecting | Choosing | Entering | Preparing | Waiting | Showing | Cleaning

  predicate IsFailure(r: Outcome<()>) { r.Lived? && r.value.Err? }

  /** The trail goes on from one to the other with at least one call, and the last one reported this error. */
  ghost predicate EndsIn(t: seq<Moment>, t': seq<Moment>, e: Error) {
    t < t' && Last(t').call.Reports(e)
  }

  // ---------------------------------------------------------------------------
  // Cleaning up
  // ---------------------------------------------------------------------------

  /** What the calls of a cleanup have answered. */
  datatype Cleanup = Cleanup(first: Outcome<()>, second: Outcome<()>, off: Outcome<()>, cleared: Outcome<()>)

  /** The calls from the nth on are those of a cleanup, every step of it, with these answers. */
  ghost predicate CleanedUp(trail: seq<Moment>, n: nat, state: ConnectState, env: Option<KWinEnv>, o: Cleanup) {
    var args, k := RestoreArgs(state.layout, state.port), if env.Some? then n + 2 else n;
    && k + 2 <= |trail|
    && (env.Some? ==> trail[n].call == Runs(args, o.first) && trail[n + 1].call == Runs(args, o.second))
    && trail[k].call == Sets(state.At(), false, o.off) && trail[k + 1].call == Clears(state.At(), o.cleared)
  }

  /** These are the calls between the two trails. */
  ghost predicate TriesCleanup(t: seq<Moment>, t': seq<Moment>, state: ConnectState, env: Option<KWinEnv>, o: Cleanup) {
    t <= t' && forall step: Step :: Cleans(step, t, t', state, env, o)
  }

  ghost predicate Cleans(step: Step, t: seq<Moment>, t': seq<Moment>, state: ConnectState, env: Option<KWinEnv>,
                         o: Cleanup) {
    match step
    case Cleaning => |t'| == |t| + CleanupLength(env) && CleanedUp(t', |t|, state, env, o)
    case _ => true
  }

  /** First what needs a compositor, and then the rest. */
  lemma CleanupIsMade(t: seq<Moment>, between: seq<Moment>, t': seq<Moment>, state: ConnectState, env: Option<KWinEnv>,
                      o: Cleanup)
    requires t <= between <= t' && |between| == (if env.Some? then |t| + 2 else |t|) && |t'| == |between| + 2
    requires env.Some? ==>
               var args := RestoreArgs(state.layout, state.port);
               between[|t|].call == Runs(args, o.first) && between[|t| + 1].call == Runs(args, o.second)
    requires t'[|between|].call == Sets(state.At(), false, o.off)
    requires t'[|between| + 1].call == Clears(state.At(), o.cleared)
    ensures TriesCleanup(t, t', state, env, o)
  {
  }

  function CleanupLength(env: Option<KWinEnv>): nat { if env.Some? then 4 else 2 }

  /** The first error counts; without a compositor that is an error as well. */
  function CleanupReport(env: Option<KWinEnv>, o: Cleanup): Result<(), Error> {
    if env.None? then Err(CompositorNotFound)
    else if IsFailure(o.second) then Err(o.second.value.error)
    else if IsFailure(o.off) then Err(o.off.value.error)
    else if IsFailure(o.cleared) then Err(o.cleared.value.error)
    else Ok(())
  }

  /**
   * A cleanup and the call after it, which deletes the journal or, if the cleanup has failed, saves that the session
   * has to be recovered.
   */
  datatype Undoing = Undoing(env: Option<KWinEnv>, o: Cleanup, during: seq<Moment>, ended: Result<(), Error>) {
    function Report(): Result<(), Error> { CleanupReport(env, o) }

    function LastCall(state: ConnectState, remembered: bool): Call {
      if Report().Ok? then Deletes(Lived(ended))
      else Saves(state.(phase := RecoveryRequired), remembered, Lived(ended))
    }

    ghost predicate Goes(t: seq<Moment>, t': seq<Moment>, state: ConnectState, remembered: bool) {
      && TriesCleanup(t, during, state, env, o)
      && during <= t' && |t'| == |during| + 1 && Last(t').call == LastCall(state, remembered)
    }

    /** The error of the last call goes before that of the cleanup. */
    function Answer(): Result<(), Error> { if ended.Err? then ended else Report() }

    /** Only the last call's success changes what is remembered. */
    function Memory(state: ConnectState, memory: Option<ConnectState>): Option<ConnectState> {
      if ended.Err? then memory else if Report().Err? then Some(state.(phase := RecoveryRequired)) else None
    }
  }

  // ---------------------------------------------------------------------------
  // Choosing what to connect
  // ---------------------------------------------------------------------------

  /** The card that was asked for, or the configured one, or the first with the most connected outputs. */
  ghost predicate CardFrom(trail: seq<Moment>, n: nat, device: Option<string>, default: Option<string>,
                           r: Result<string, Error>) {
    if device.Some? then |trail| == n && r == Ok(device.value)
    else if default.Some? then |trail| == n && r == Ok(default.value)
    else
      && n < |trail| && trail[n].call.ListsCards? && trail[n].call.cards.Lived?
      && var cards := trail[n].call.cards.value;
      if cards.Err? then |trail| == n + 1 && r == Err(cards.error)
      else if cards.value == [] then |trail| == n + 1 && r == Err(NoCard)
      else r.Ok? && IsBest(trail, n + 1, cards.value, r.value)
  }

  /** The least eligible connector of the card among those that have just been read, if there is any. */
  ghost predicate SlotFrom(trail: seq<Moment>, card: string, r: Result<Slot, Error>) {
    && trail != [] && Last(trail).call.ReadsConnectors? && Last(trail).call.entries.Lived?
    && var entries := Last(trail).call.entries.value;
    if entries.Err? then r == Err(entries.error)
    else if r.Ok? then r.value.card == card && Sysfs.IsChosen(entries.value, card, r.value.port)
    else r.error == NoSlot && forall port :: !Sysfs.Eligible(entries.value, card, port)
  }

  /** The choice of compositor, card and connector, each with the trail when it had been made. */
  datatype Choice = Choice(resolved: seq<Moment>, env: Result<KWinEnv, Error>,
                           selected: seq<Moment>, card: Result<string, Error>,
                           chosen: seq<Moment>, slot: Result<Slot, Error>) {
    ghost predicate Goes(t: seq<Moment>, params: ConnectParams, default: Option<string>) {
      t <= End() && forall step: Step :: Takes(step, t, params, default)
    }

    /** The calls of each step that comes to be taken. */
    ghost predicate Takes(step: Step, t: seq<Moment>, params: ConnectParams, default: Option<string>) {
      match step
      case Resolving => t <= resolved <= End() && ResolvedTo(resolved, |t|, params.requesterUid, env)
      case Selecting =>
        env.Ok? ==> resolved <= selected && CardFrom(selected, |resolved|, params.device, default, card)
      case Choosing =>
        env.Ok? && card.Ok? ==>
          selected <= chosen && |chosen| == |selected| + 1 && SlotFrom(chosen, card.value, slot)
      case _ => true
    }

    function End(): seq<Moment> { if env.Err? then resolved else if card.Err? then selected else chosen }

    function Answer(): Result<(KWinEnv, Slot), Error> {
      if env.Err? then Err(env.error)
      else if card.Err? then Err(card.error)
      else if slot.Err? then Err(slot.error)
      else Ok((env.value, slot.value))
    }
  }

  /** The outputs are listed, and the record of the session is saved if its names are valid. */
  ghost predicate EntryFrom(t: seq<Moment>, t': seq<Moment>, params: ConnectParams, env: KWinEnv, slot: Slot,
                            r: Result<ConnectState, Error>) {
    && t < t' && t'[|t|].call.Lists? && t'[|t|].call.listed.Lived?
    && var listed, n := t'[|t|].call.listed.value, |t|;
    if listed.Err? then |t'| == n + 1 && r == Err(listed.error)
    else if !IsCardId(slot.card) || !IsConnectorId(slot.port) then |t'| == n + 1 && r == Err(Error.Other)
    else
      var s := ConnectState(Connecting, slot.card, slot.port, params.mode, env.uid, t'[n].call.reading.outputs);
      && |t'| == n + 2
      && t'[n + 1].call.Saves? && t'[n + 1].call.record == s && !t'[n + 1].call.remembered
      && if r.Ok? then Succeeded(t'[n + 1].call.r) && r.value == s else t'[n + 1].call.Reports(r.error)
  }

  // ---------------------------------------------------------------------------
  // Bringing the output up
  // ---------------------------------------------------------------------------

  predicate Overrode(call: Call, s: ConnectState, edid: seq<Bits.byte>) {
    call.Overrides? && call.slot == s.At() && call.edid == edid && Succeeded(call.r)
  }

  predicate Forgot(call: Call, s: ConnectState) { call.Forgets? && call.port == s.port && Succeeded(call.r) }

  predicate ForcedOn(call: Call, s: ConnectState) {
    call.Sets? && call.slot == s.At() && call.on && Succeeded(call.r)
  }

  /** The override is written, KWin forgets the connector, the outputs go off and the connector is forced on. */
  ghost predicate PreparedBy(t: seq<Moment>, t': seq<Moment>, s: ConnectState, edid: seq<Bits.byte>,
                             toDisable: seq<string>, r: Result<(), Error>) {
    if r.Err? then EndsIn(t, t', r.error)
    else
      var n := |t|;
      && t < t' && |t'| == n + 2 * |toDisable| + 3
      && Overrode(t'[n].call, s, edid) && Forgot(t'[n + 1].call, s) && ForcedOn(Last(t').call, s)
  }

  /** A listing was taken at this moment, and the connector turns up in it. */
  predicate TurnedUp(m: Moment, port: string) { m.call.Lists? && port in m.call.reading.mentioned }

  /** Then its output is listed, or something else in the listing mentions it. */
  lemma TurnedUpIff(trail: Trail, i: nat, port: string)
    requires i < |trail| && trail[i].call.Lists? && Succeeded(trail[i].call.listed) && IsConnectorId(port)
    ensures TurnedUp(trail[i], port) <==> Mentions(trail[i].call.listed.value.value, trail[i].world.outputs, port)
  {
    assert IsSafeAt(trail, i);
    TurnsUpIff(trail[i].call.listed.value.value, trail[i].world.outputs, port);
  }

  /** From the nth moment on and up to the kth there have been listings that do not mention it, or none. */
  ghost predicate InVain(trail: seq<Moment>, n: nat, k: nat, port: string)
    requires k <= |trail|
    decreases k
  {
    k <= n || (trail[k - 1].call.Lists? && !TurnedUp(trail[k - 1], port) && InVain(trail, n, k - 1, port))
  }

  lemma {:induction false} StillInVain(trail: seq<Moment>, later: seq<Moment>, n: nat, k: nat, port: string)
    requires k <= |trail| && trail <= later && InVain(trail, n, k, port)
    ensures InVain(later, n, k, port)
    decreases k
  {
    if k > n {
      StillInVain(trail, later, n, k - 1, port);
    }
  }

  /** The outputs are listed until the connector turns up, or as often as is allowed in vain. */
  ghost predicate AwaitedBy(t: seq<Moment>, t': seq<Moment>, port: string, polls: nat, r: Result<(), Error>) {
    && t <= t'
    && if r.Ok? then
         && |t| < |t'| <= |t| + polls && InVain(t', |t|, |t'| - 1, port)
         && TurnedUp(Last(t'), port) && Succeeded(Last(t').call.listed)
       else r.error == OutputDetectionTimeout && |t'| == |t| + polls && InVain(t', |t|, |t'|, port)
  }

  /** Right of the other outputs as they were listed, or zero if they could not be listed. */
  function PlaceFor(listing: Call, port: string): i32
    requires listing.Lists?
  {
    if Succeeded(listing.listed) then Rightmost(listing.reading.outputs, port) else 0
  }

  /** A listing was taken at this moment, and the output shows the mode that was asked for. */
  ghost predicate IsVerified(m: Moment, s: ConnectState) {
    m.call.Lists? && Succeeded(m.call.listed) && ShowsMode(m.world.outputs, s.port, s.mode)
  }

  /** What kscreen-doctor is told to show the output: its mode, its place, and to switch it on. */
  predicate Shows(call: Call, port: string, mode: Mode, x: i32) {
    && call.Runs?
    && call.args == [SetMode(port, mode.width, mode.height, mode.refresh), Position(port, x, 0), Enable(port)]
  }

  /** The outputs are listed, this one is shown in two passes, the second of which counts, and its mode is verified. */
  ghost predicate ShownBy(t: seq<Moment>, t': seq<Moment>, s: ConnectState, r: Result<(), Error>) {
    var n := |t|;
    && t <= t' && n + 3 <= |t'| <= n + 4 && t'[n].call.Lists?
    && var x := PlaceFor(t'[n].call, s.port);
    && Shows(t'[n + 1].call, s.port, s.mode, x) && Shows(t'[n + 2].call, s.port, s.mode, x)
    && if |t'| == n + 3 then r.Err? && t'[n + 2].call.Reports(r.error)
       else
         && Succeeded(t'[n + 2].call.r) && t'[n + 3].call.Lists?
         && if IsVerified(t'[n + 3], s) then r.Ok? else r == Err(ModeVerificationFailed)
  }

  /** Preparing, waiting and showing, each with the trail when it was over. */
  datatype Attempt = Attempt(prepared: seq<Moment>, preparing: Result<(), Error>,
                             awaited: seq<Moment>, waiting: Result<(), Error>,
                             shown: seq<Moment>, showing: Result<(), Error>) {
    ghost predicate Goes(t: seq<Moment>, s: ConnectState, edid: seq<Bits.byte>, toDisable: seq<string>, polls: nat) {
      t <= End() && forall step: Step :: Takes(step, t, s, edid, toDisable, polls)
    }

    /** The calls of each step that comes to be taken. */
    ghost predicate Takes(step: Step, t: seq<Moment>, s: ConnectState, edid: seq<Bits.byte>,
                          toDisable: seq<string>, polls: nat) {
      match step
      case Preparing => t <= prepared <= End() && PreparedBy(t, prepared, s, edid, toDisable, preparing)
      case Waiting => preparing.Ok? ==> AwaitedBy(prepared, awaited, s.port, polls, waiting)
      case Showing => preparing.Ok? && waiting.Ok? ==> ShownBy(awaited, shown, s, showing)
      case _ => true
    }

    function End(): seq<Moment> { if preparing.Err? then prepared else if waiting.Err? then awaited else shown }

    function Answer(): Result<(), Error> {
      if preparing.Err? then preparing else if waiting.Err? then waiting else showing
    }
  }

  /** An attempt, the save of the session as connected if that was successful, and the rollback if either was not. */
  datatype Venture = Venture(attempt: Attempt, recorded: seq<Moment>, recording: Result<(), Error>, undoing: Undoing) {
    ghost predicate Goes(t: seq<Moment>, t': seq<Moment>, s: ConnectState, edid: seq<Bits.byte>,
                         toDisable: seq<string>, polls: nat) {
      attempt.Goes(t, s, edid, toDisable, polls) && Finishes(t', s)
    }

    ghost predicate Finishes(t': seq<Moment>, s: ConnectState) {
      && attempt.End() <= End() <= t'
      && (attempt.Answer().Ok? ==>
            |recorded| == |attempt.End()| + 1
            && Last(recorded).call == Saves(Record(s), true, Lived(recording)))
      && if Outcome().Ok? then t' == recorded else undoing.Goes(End(), t', Record(s), true)
    }

    /** The record that there was an attempt to save last. */
    function Record(s: ConnectState): ConnectState { if attempt.Answer().Ok? then s.(phase := Connected) else s }

    function End(): seq<Moment> { if attempt.Answer().Err? then attempt.End() else recorded }

    /** Why it was given up, if it was. */
    function Outcome(): Result<(), Error> { if attempt.Answer().Err? then attempt.Answer() else recording }

    /** If the rollback failed as well, that is what is answered. */
    function Answer(): Result<(), Error> {
      if Outcome().Ok? || undoing.Report().Ok? then Outcome() else Err(Error.Other)
    }

    /** A rollback decides what is remembered by its cleanup alone. */
    function Memory(s: ConnectState): Option<ConnectState> {
      if Outcome().Ok? then Some(s.(phase := Connected))
      else if undoing.Report().Ok? then None
      else Some(s.(phase := RecoveryRequired))
    }
  }

  // ---------------------------------------------------------------------------
  // The three operations
  // ---------------------------------------------------------------------------

  /** The outputs that are on in this layout, the slot apart. */
  function EnabledExcept(layout: seq<OutputInfo>, slot: string): seq<string> {
    if layout == [] then []
    else
      var o := layout[|layout| - 1];
      EnabledExcept(layout[..|layout| - 1], slot) + if o.enabled && o.name != slot then [o.name] else []
  }

  /** The outputs a connect is to switch off. */
  function ToDisable(exclusive: bool, disableOutputs: seq<string>, s: ConnectState): seq<string> {
    if exclusive then EnabledExcept(s.layout, s.port) else disableOutputs
  }

  /** A connect after the choice: the journal entry, and what is ventured then. */
  datatype Sequel = Sequel(begun: seq<Moment>, entry: Result<ConnectState, Error>, venture: Venture) {
    ghost predicate Goes(t: seq<Moment>, t': seq<Moment>, params: ConnectParams, settings: Settings,
                         env: KWinEnv, slot: Slot, edid: seq<Bits.byte>) {
      && t <= begun <= t' && (forall step: Step :: Takes(step, t, params, env, slot))
      && if entry.Err? then t' == begun
         else
           venture.Goes(begun, t', entry.value, edid,
                        ToDisable(params.exclusive, settings.disableOutputs, entry.value), settings.polls)
    }

    ghost predicate Takes(step: Step, t: seq<Moment>, params: ConnectParams, env: KWinEnv, slot: Slot) {
      match step
      case Entering => EntryFrom(t, begun, params, env, slot, entry)
      case _ => true
    }

    function Answer(): Result<ConnectResult, Error> {
      if entry.Err? then Err(entry.error)
      else if venture.Answer().Err? then Err(venture.Answer().error)
      else Ok(ConnectResult(entry.value.card, entry.value.port, entry.value.mode))
    }

    function Memory(): Option<ConnectState> { if entry.Err? then None else venture.Memory(entry.value) }
  }

  /** A connect with nothing in memory. */
  datatype Course = Course(choice: Choice, sequel: Sequel) {
    ghost predicate Goes(t: seq<Moment>, t': seq<Moment>, params: ConnectParams, settings: Settings,
                         edid: seq<Bits.byte>) {
      && choice.Goes(t, params, settings.device)
      && if choice.Answer().Err? then t' == choice.End()
         else sequel.Goes(choice.End(), t', params, settings, choice.env.value, choice.slot.value, edid)
    }

    function Answer(): Result<ConnectResult, Error> {
      if choice.Answer().Err? then Err(choice.Answer().error) else sequel.Answer()
    }

    function Memory(): Option<ConnectState> { if choice.Answer().Err? then None else sequel.Memory() }
  }

  lemma EndsInChoice(c: Course, t: seq<Moment>, params: ConnectParams, settings: Settings, edid: seq<Bits.byte>)
    requires c.choice.Goes(t, params, settings.device) && c.choice.Answer().Err?
    ensures c.Goes(t, c.choice.End(), params, settings, edid)
  {
  }

  lemma GoesOnAfterChoice(c: Course, t: seq<Moment>, t': seq<Moment>, params: ConnectParams, settings: Settings,
                          env: KWinEnv, slot: Slot, edid: seq<Bits.byte>)
    requires c.choice.Goes(t, params, settings.device) && c.choice.Answer() == Ok((env, slot))
    requires c.sequel.Goes(c.choice.End(), t', params, settings, env, slot, edid)
    ensures c.Goes(t, t', params, settings, edid)
  {
  }

  /** `connect`, with this in memory. */
  ghost predicate Connects(t: seq<Moment>, t': seq<Moment>, memory: Option<ConnectState>, params: ConnectParams,
                           settings: Settings, edid: seq<Bits.byte>, c: Course, r: Result<ConnectResult, Error>) {
    if memory.Some? then t' == t && r == Err(AlreadyConnected)
    else c.Goes(t, t', params, settings, edid) && r == c.Answer()
  }

  function Found(env: Result<KWinEnv, Error>): Option<KWinEnv> { if env.Ok? then Some(env.value) else None }

  /** The search for the compositor of a session, and what is undone then. */
  datatype Departure = Departure(resolved: seq<Moment>, env: Result<KWinEnv, Error>, undoing: Undoing) {
    ghost predicate Goes(t: seq<Moment>, t': seq<Moment>, s: ConnectState) {
      && t <= resolved && ResolvedTo(resolved, |t|, s.sessionUid, env)
      && undoing.env == Found(env) && undoing.Goes(resolved, t', s, true)
    }
  }

  /** A disconnect: the save, and the departure. */
  datatype Leaving = Leaving(begun: seq<Moment>, saving: Result<(), Error>, departure: Departure) {
    ghost predicate Goes(t: seq<Moment>, t': seq<Moment>, s: ConnectState) {
      && t <= begun && |begun| == |t| + 1 && Last(begun).call == Saves(s, true, Lived(saving))
      && if saving.Err? then t' == begun else departure.Goes(begun, t', s)
    }

    function Answer(): Result<(), Error> { if saving.Err? then saving else departure.undoing.Answer() }

    function Memory(s: ConnectState, memory: Option<ConnectState>): Option<ConnectState> {
      if saving.Err? then memory else departure.undoing.Memory(s, Some(s))
    }
  }

  /** `disconnect`, with this in memory. */
  ghost predicate Disconnects(t: seq<Moment>, t': seq<Moment>, memory: Option<ConnectState>, l: Leaving,
                              r: Result<(), Error>) {
    match memory
    case None => t' == t && r == Err(NotConnected)
    case Some(c) => l.Goes(t, t', c.(phase := Disconnecting)) && r == l.Answer()
  }

  /** The search for the compositor of a session and, if it is found, a listing of its outputs. */
  datatype Search = Search(resolved: seq<Moment>, env: Result<KWinEnv, Error>, examined: seq<Moment>) {
    ghost predicate Goes(t: seq<Moment>, s: ConnectState) {
      && t <= resolved <= examined && ResolvedTo(resolved, |t|, s.sessionUid, env)
      && if env.Err? then examined == resolved
         else |examined| == |resolved| + 1 && Last(examined).call.Lists? && Last(examined).call.listed.Lived?
    }

    /** The outputs could be listed, and this one was on then. */
    predicate ListsAsOn(port: string) {
      && env.Ok? && examined != []
      && Last(examined).call.Lists? && Succeeded(Last(examined).call.listed)
      && port in Shown(Last(examined).world.outputs)
    }

    /** The session is live. */
    predicate Adopts(s: ConnectState) { s.phase.Connected? && ListsAsOn(s.port) }
  }

  /** A restore from a journal: the search, and what is undone if the session is not live. */
  datatype Restoration = Restoration(search: Search, undoing: Undoing) {
    ghost predicate Goes(t: seq<Moment>, t': seq<Moment>, s: ConnectState, remembered: bool) {
      && search.Goes(t, s)
      && if search.Adopts(s) then t' == search.examined
         else undoing.env == Found(search.env) && undoing.Goes(search.examined, t', s, remembered)
    }

    function Answer(s: ConnectState): Result<(), Error> { if search.Adopts(s) then Ok(()) else undoing.Answer() }

    function Memory(s: ConnectState, memory: Option<ConnectState>): Option<ConnectState> {
      if search.Adopts(s) then Some(s) else undoing.Memory(s, memory)
    }
  }

  /** A restore: the load of the journal, and the restoration from it if there is one. */
  datatype Restoring = Restoring(begun: seq<Moment>, loaded: Result<Option<ConnectState>, Error>,
                                 restoration: Restoration) {
    ghost predicate Goes(t: seq<Moment>, t': seq<Moment>, remembered: bool) {
      && t <= begun && |begun| == |t| + 1 && Last(begun).call == Loads(remembered, Lived(loaded))
      && if loaded.Ok? && loaded.value.Some? then restoration.Goes(begun, t', loaded.value.value, remembered)
         else t' == begun
    }

    /** There was a journal, of a session that is not live. */
    predicate Undoes() { loaded.Ok? && loaded.value.Some? && !restoration.search.Adopts(loaded.value.value) }

    function Answer(): Result<(), Error> {
      if loaded.Err? then Err(loaded.error)
      else if loaded.value.None? then Ok(())
      else restoration.Answer(loaded.value.value)
    }

    function Memory(memory: Option<ConnectState>): Option<ConnectState> {
      if loaded.Err? || loaded.value.None? then memory else restoration.Memory(loaded.value.value, memory)
    }
  }

  // ---------------------------------------------------------------------------
  // What it takes to connect
  // ---------------------------------------------------------------------------

  /** A card was asked for, configured or listed. */
  predicate HasCard(c: Choice, params: ConnectParams, default: Option<string>) {
    || params.device.Some? || default.Some?
    || (&& |c.resolved| < |c.selected|
        && var call := c.selected[|c.resolved|].call;
        call.ListsCards? && Succeeded(call.cards) && call.cards.value.value != [])
  }

  /** An eligible connector of the card was read. */
  ghost predicate HasSlot(c: Choice) {
    && c.card.Ok? && c.chosen != []
    && var call := Last(c.chosen).call;
    && call.ReadsConnectors? && Succeeded(call.entries)
    && exists port :: Sysfs.Eligible(call.entries.value.value, c.card.value, port)
  }

  predicate HasNames(slot: Slot) { IsCardId(slot.card) && IsConnectorId(slot.port) }

  /** The name turned up in one of the listings that are allowed. */
  ghost predicate HasAppeared(a: Attempt, port: string, polls: nat) {
    exists k :: |a.prepared| <= k < |a.prepared| + polls && k < |a.awaited| && TurnedUp(a.awaited[k], port)
  }

  /** The mode was shown when it was to be verified. */
  ghost predicate HasMode(a: Attempt, port: string, mode: Mode) {
    a.shown != [] && ShowsMode(Last(a.shown).world.outputs, port, mode)
  }

  lemma ReportIsFault(call: Call, e: Error)
    requires call.Reports(e)
    ensures call.IsFault()
  {
  }

  lemma ChosenIff(c: Choice, t: seq<Moment>, params: ConnectParams, default: Option<string>)
    requires c.Goes(t, params, default) && Faultless(c.End(), |t|)
    ensures c.Answer().Ok? <==> HasCard(c, params, default) && HasSlot(c)
  {
    assert c.Takes(Resolving, t, params, default) && c.Takes(Selecting, t, params, default);
    assert c.Takes(Choosing, t, params, default);
    FaultlessSoFar(c.resolved, c.End(), |t|, |t|);
    ResolvedWithoutFault(c.resolved, |t|, params.requesterUid, c.env);
    FaultlessSoFar(c.selected, c.End(), |t|, |t|);
    if |c.resolved| < |c.selected| {
      assert !IsFaultAt(c.selected, |c.resolved|);
    }
    if c.card.Ok? {
      assert !IsFaultAt(c.chosen, |c.chosen| - 1);
    }
  }

  lemma EnteredIff(t: seq<Moment>, t': seq<Moment>, params: ConnectParams, env: KWinEnv, slot: Slot,
                   r: Result<ConnectState, Error>)
    requires EntryFrom(t, t', params, env, slot, r) && Faultless(t', |t|)
    ensures r.Ok? <==> HasNames(slot)
    ensures r.Ok? ==> r.value.At() == slot && r.value.mode == params.mode
  {
    assert !IsFaultAt(t', |t|) && !IsFaultAt(t', |t'| - 1);
  }

  lemma {:induction false} VainMeansAbsent(trail: seq<Moment>, n: nat, k: nat, port: string, i: nat)
    requires k <= |trail| && InVain(trail, n, k, port) && n <= i < k
    ensures !TurnedUp(trail[i], port)
    decreases k
  {
    if i < k - 1 {
      VainMeansAbsent(trail, n, k - 1, port, i);
    }
  }

  lemma AppearedIff(a: Attempt, port: string, polls: nat)
    requires AwaitedBy(a.prepared, a.awaited, port, polls, a.waiting)
    ensures a.waiting.Ok? <==> HasAppeared(a, port, polls)
  {
    if a.waiting.Ok? {
      assert TurnedUp(a.awaited[|a.awaited| - 1], port);
    } else {
      forall k | |a.prepared| <= k < |a.prepared| + polls && k < |a.awaited|
        ensures !TurnedUp(a.awaited[k], port)
      {
        VainMeansAbsent(a.awaited, |a.prepared|, |a.awaited|, port, k);
      }
    }
  }

  lemma ShownIff(a: Attempt, s: ConnectState)
    requires ShownBy(a.awaited, a.shown, s, a.showing) && Faultless(a.shown, |a.awaited|)
    ensures a.showing.Ok? <==> HasMode(a, s.port, s.mode)
  {
    assert !IsFaultAt(a.shown, |a.shown| - 1);
    if |a.shown| == |a.awaited| + 3 {
      ReportIsFault(Last(a.shown).call, a.showing.error);
    }
  }

  lemma AttemptedIff(a: Attempt, t: seq<Moment>, s: ConnectState, edid: seq<Bits.byte>, toDisable: seq<string>,
                     polls: nat)
    requires a.Goes(t, s, edid, toDisable, polls) && Faultless(a.End(), |t|)
    ensures a.Answer().Ok? <==> HasAppeared(a, s.port, polls) && HasMode(a, s.port, s.mode)
  {
    assert a.Takes(Preparing, t, s, edid, toDisable, polls) && a.Takes(Waiting, t, s, edid, toDisable, polls);
    assert a.Takes(Showing, t, s, edid, toDisable, polls);
    if a.preparing.Err? {
      assert !IsFaultAt(a.prepared, |a.prepared| - 1);
      ReportIsFault(Last(a.prepared).call, a.preparing.error);
    } else {
      AppearedIff(a, s.port, polls);
      if a.waiting.Ok? {
        FaultlessSoFar(a.shown, a.shown, |t|, |a.awaited|);
        ShownIff(a, s);
      }
    }
  }

  lemma FinishedIff(v: Venture, t': seq<Moment>, s: ConnectState, n: nat)
    requires v.Finishes(t', s) && n <= |v.attempt.End()| && Faultless(t', n)
    ensures v.Answer().Ok? <==> v.attempt.Answer().Ok?
  {
    if v.attempt.Answer().Ok? {
      FaultlessSoFar(v.recorded, t', n, n);
      assert !IsFaultAt(v.recorded, |v.recorded| - 1);
      if v.recording.Err? {
        ReportIsFault(Last(v.recorded).call, v.recording.error);
      }
    }
  }

  lemma VenturedIff(v: Venture, t: seq<Moment>, t': seq<Moment>, s: ConnectState, edid: seq<Bits.byte>,
                    toDisable: seq<string>, polls: nat)
    requires v.Goes(t, t', s, edid, toDisable, polls) && Faultless(t', |t|)
    ensures v.Answer().Ok? <==> HasAppeared(v.attempt, s.port, polls) && HasMode(v.attempt, s.port, s.mode)
  {
    FaultlessSoFar(v.attempt.End(), t', |t|, |t|);
    AttemptedIff(v.attempt, t, s, edid, toDisable, polls);
    FinishedIff(v, t', s, |t|);
  }

  /** All of it. */
  ghost predicate MayConnect(c: Course, params: ConnectParams, settings: Settings) {
    && HasCard(c.choice, params, settings.device) && HasSlot(c.choice)
    && c.choice.slot.Ok? && HasNames(c.choice.slot.value)
    && HasAppeared(c.sequel.venture.attempt, c.choice.slot.value.port, settings.polls)
    && HasMode(c.sequel.venture.attempt, c.choice.slot.value.port, params.mode)
  }

  lemma SequelIff(q: Sequel, t: seq<Moment>, t': seq<Moment>, params: ConnectParams, settings: Settings,
                  env: KWinEnv, slot: Slot, edid: seq<Bits.byte>)
    requires q.Goes(t, t', params, settings, env, slot, edid) && Faultless(t', |t|)
    ensures q.Answer().Ok? <==>
              && HasNames(slot) && HasAppeared(q.venture.attempt, slot.port, settings.polls)
              && HasMode(q.venture.attempt, slot.port, params.mode)
  {
    FaultlessSoFar(q.begun, t', |t|, |t|);
    assert q.Takes(Entering, t, params, env, slot);
    EnteredIff(t, q.begun, params, env, slot, q.entry);
    if q.entry.Ok? {
      var s := q.entry.value;
      FaultlessSoFar(t', t', |t|, |q.begun|);
      VenturedIff(q.venture, q.begun, t', s, edid, ToDisable(params.exclusive, settings.disableOutputs, s),
        settings.polls);
    }
  }

  /**
   * A connect whose calls have not failed succeeds exactly if a card was asked for, configured or listed, an
   * eligible connector of it was read, both have valid names, the name turned up in one of the listings that are
   * allowed, and the mode was shown when it was to be verified.
   */
  lemma ConnectsIff(c: Course, t: seq<Moment>, t': Trail, params: ConnectParams, settings: Settings,
                    edid: seq<Bits.byte>)
    requires t != [] && t <= t' && Last(t').faults == Last(t).faults && c.Goes(t, t', params, settings, edid)
    ensures c.Answer().Ok? <==> MayConnect(c, params, settings)
  {
    SameFaultsMeansFaultless(t', |t|);
    FaultlessSoFar(c.choice.End(), t', |t|, |t|);
    ChosenIff(c.choice, t, params, settings.device);
    if c.choice.Answer().Ok? {
      var env, slot := c.choice.env.value, c.choice.slot.value;
      FaultlessSoFar(t', t', |t|, |c.choice.End()|);
      SequelIff(c.sequel, c.choice.End(), t', params, settings, env, slot, edid);
    }
  }
}
