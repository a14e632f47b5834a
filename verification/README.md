# Sunshine virtual display daemon: a verified model

The daemon gives a streaming host a virtual monitor. It writes an EDID override for an empty
connector, forces the connector on, switches physical outputs off where asked, and verifies the mode
KWin shows; later it undoes all of that. It may be killed at any instant and any call it makes may
fail, so it writes a recovery journal before it changes anything. This project models that lifecycle
and the code it depends on, and proves what the lifecycle keeps over every run.

The modules, from the outside in:

- `Daemon`, `Handler`, `Strategy`, `Compositor`, `Cards`: restarts and event sequences, request
  dispatch, and connect, disconnect and restore with their rollback, as classes over one `Outside`
  object.
- `Courses`: the courses that connecting, disconnecting and restoring take, as relations on the calls
  that were made: which calls, step by step, what is answered by what they have answered, and what is
  remembered then.
- `OutsideCalls`, `Effects`, `World`: everything the daemon changes outside itself. Each call may
  report failure with or without having taken effect, and the process may die before or after the
  effect. A death is the value `Died`, which every caller passes on at once; what a death leaves
  behind is `Outside`. `Outside.trail` collects every moment between two calls together with the
  call, its arguments and its answer, so that one predicate over the trail speaks about every
  intermediate step of a run and a contract can name the calls that were made; that every moment is
  covered by the journal is part of the trail's type. A listing is recorded with what is read in it,
  and the trail also has the moments at which a daemon is started, at which it takes up an event,
  with what it remembers then, and at which an event finds no daemon. `Outside.faults` counts the
  calls that did not succeed and `Outside.breaks` those that can lose the session with an empty
  memory: a load of the journal that is refused, and a record of a failed cleanup that cannot be
  written. Both counts are also part of every moment. The bodies in `Outside` are nondeterministic:
  the world may take every step the contracts allow, save that a listing is printed in one of the
  ways the format allows.
- `Histories`: three runs that end badly.
- `Layout`: what `kscreen-doctor` arguments do, the arguments that restore a layout, placement.
- `KScreen`, `Blocks`, `Trimming`, `Listing`, `Rates`, `Ansi`, `Telling`, `Waiting`, `Text`: the two
  text parsers, the blocks that any text consists of, trimming, a printer for the documented format,
  what the text of a rate is worth, the escape stripper, what a listing tells about the screen, and
  what it takes for a name to turn up in one. A text is a listing of a screen if its blocks, whatever they look like, tell of each output
  once and of no other, and of its current mode if it is on.
- `Edid`, `Bits`: the EDID 1.4 generator and a decoder after the VESA Enhanced EDID Standard,
  Release A, Revision 2 (sections 3.10.2 and 3.11).
- `Watchers`, `Ancestry`: the generation tokens as interleaved steps; the search for the Sunshine
  process.
- `StateFile`, `Sysfs`, `Framing`, `Proto`: journal file, slot choice, frames, validation.

What is proved, hardest first:

- Write-ahead safety over whole runs (`Daemon.Run`): at every moment of every sequence of requests,
  failures, crashes, restarts, watcher and sleep disconnects and user rearrangements, whatever is
  left of a session is covered by the journal (`World.CoverageMeansWriteAhead` spells the invariant
  out). Each event that is served has its place in the trail, one after the other: the
  rearrangement; or the taking up, by a daemon that remembers the session of the journal, and then
  the whole course of the operation with its answer, or a death in it; or the death of the daemon
  that was just started for it.
  All events are served, unless the next one is a rearrangement that the journal does not know how
  to undo a session on, or a connect that would overwrite the journal; and the latter comes only
  after a break. So as long as no load is refused and no recovery record is lost, no connect ever
  overwrites the journal.
- Crash recovery (`Daemon.RunThenRecover`, `Strategy.KWinStrategy.Restore`): from every moment a
  crash can leave, a restore whose calls all succeed ends with the baseline back and nothing left,
  or adopts the live session; a restore that reports success has done one of these two in any case.
- All-or-nothing connect (`Strategy.KWinStrategy.Connect`), down to the compositor, card and
  connector chosen from the calls just made, the bytes of the override, the listing that ended the
  wait, the place of the virtual output and the exact set of outputs that are on. Every answer is
  determined by the calls: a connect none of whose calls fails succeeds exactly if a card and an
  eligible connector with valid names were found, the name turned up in one of the listings that are
  allowed and the mode was shown when it was to be verified (`Courses.ConnectsIff`); and every error
  has its cause. A failed connect is rolled back with all the calls of a cleanup; without a fault it
  leaves nothing behind.
- Disconnecting and restoring (`Strategy.KWinStrategy.Disconnect`, `Strategy.KWinStrategy.Restore`):
  the calls of a cleanup are all made, with or without a compositor; a cleanup that fails is followed
  by the save of a recovery record, which is remembered exactly if it was saved; what has succeeded
  is undone even when the answer is an error. A request gets what it asks for and the answer of that
  operation (`Handler.RealHandler.Handle`).
- Phases over a daemon's lifetime, restoring and placement on screens, both parsers on every text,
  the layout round trip, the EDID round trips and the exact condition for the emitted rate, tokens,
  framing.

Where the code does not do what one would wish, the exact condition is proved:

- A daemon whose restore failed at the start serves with an empty memory (`main.rs:40-42`). A
  connect then snapshots a world that is not clean and overwrites the journal:
  `World.BeginCoversIff` says exactly when a journal entry covers the world,
  `World.StrandedConnectLosesBaseline` that the baseline is lost otherwise, and
  `Histories.DarkWorldIsReached` gives a run that leaves every output off. `Daemon.Run` returns
  before the first such connect, and says that there has been a break.
- A journal that could not be deleted after a rollback (`mod.rs:132`) lies over a clean world. If
  the user rearranges the monitors then, it covers the new arrangement exactly if that is the one it
  remembers (`World.StaleJournalCoversIff`); otherwise the next start puts the old one back
  (`Histories.StaleJournalUndoesArrangement`). `Daemon.Run` serves the rearrangement in the one case
  and returns before it in the other.
- If the user rearranges the monitors during a session, what the session brings back is what was
  there when it began. The invariant survives that exactly as long as the monitors of then are still
  plugged in and no other output but the session's has been switched on (`Daemon.MisleadsIff`);
  `Daemon.Run` serves such rearrangements.
- A save that fails after its rename (`state.rs:46-49`) can leave a journal that says connected
  under a memory that says the session is to be recovered, and a later restore then takes it for
  connected. `Strategy.KWinStrategy.Commit` says exactly when: the failed last save of the connect
  had replaced the journal, the rollback failed, and the save of the recovery left the journal as it
  was. `Histories.FailedCommitComesBack` and `Histories.CommitThenRestore` give the run. Apart from
  that, no session that is being taken down or recovered becomes connected again
  (`Strategy.NeverBackToConnected`), whatever the saves do.
- The wait for the virtual output ends as soon as its name turns up anywhere in a listing, as it
  does when the name of another output contains it. `Waiting.AwaitedIff` has the exact condition,
  and `Strategy.KWinStrategy.AwaitOutput` says that the last listing of the wait meets it.
- The rate decoded from the EDID is accepted by the daemon's own verification exactly when twice the
  clock lost to rounding and saturation is at most the frame size; two of the extra modes the
  example configuration offers fail it (`Edid.DocumentedExtraModesAreRejected`).
- Active sizes are exact exactly up to 4095; serials collide exactly when three numbers agree; the
  advertised vertical rates contain the requested one exactly up to 255 Hz; the advertised
  horizontal rates do not contain that of two built-in modes (`Edid.BuiltInModesExceedLineRates`,
  with the exact condition in `Edid.RangeLimitsContainLineRateIff`); `strip_ansi_csi` is idempotent
  exactly on texts in which no doubled escape is met.
- A watcher can tear down another session in two windows: between its check and its call, and
  between a sleep-time disconnect and the next token. `Watchers.CurrentTokenIsOwnIff` says exactly
  what the current token tells.

## Model

| member | source | states |
|---|---|---|
| Daemon.Run | crates/svd-daemon/src/main.rs:31-92 | over every sequence of requests, watcher and sleep disconnects, stops, kills with restarts and user rearrangements, with every call failing or dying in every way, the write-ahead invariant holds at every moment; each event that is served has its stretch of the trail, in their order: the rearrangement, or the taking up with a memory that agrees with the journal and then the whole course of the operation it asks for with its answer or a death in it, or the death of the daemon just started; all events are served unless the next one is a rearrangement that misleads a session or a stale record, or a connect over an unfinished session with an empty memory, and the latter only after a refused load or a lost recovery record |
| Daemon.Start | crates/svd-daemon/src/main.rs:32-42 | a start keeps the invariant however its restore ends; it ends stranded only if the load was refused or the recovery record lost; without a fault it ends restored with an empty memory or with the live session adopted |
| Daemon.RunThenRecover | crates/svd-daemon/src/main.rs:40-42 | after any such run, whose events have their places before the last start, faults and deaths included, that start, if no call has failed since, leaves the baseline and nothing else, or the live session adopted |
| Daemon.Serve | crates/svd-daemon/src/sleep.rs:181-187 | the event is taken up with what the daemon remembers, and served in full or with a death in a call; the invariant is kept; the daemon is up afterwards unless the event was to end it or it has died in a call, and does not become stranded without a refused load or a lost recovery record |
| Daemon.Meet | crates/svd-daemon/src/main.rs:31-42 | a daemon is started for the event if there is none; it serves the event, or the event is missed because it died, or it is put off, and only by a stranded daemon that would overwrite the journal |
| Daemon.MisleadsIff | crates/svd-daemon/src/strategy/kwin/mod.rs:151-164 | a rearrangement of the monitors, at rest or during a session, leaves a world that is covered exactly if it does not mislead: a condition on which outputs are plugged in and on, and on the journal |
| Daemon.Rearrange | crates/svd-daemon/src/strategy/kwin/mod.rs:151-164 | a rearrangement that does not mislead leaves the invariant and a ready daemon, during a session as well; then the baseline remains what it was when the session began |
| World.CoverageMeansWriteAhead | crates/svd-daemon/src/strategy/kwin/mod.rs:239-240 | an override, a forced connector or a changed baseline output implies a journal that names that card and slot and carries the baseline |
| World.BeginCoversIff | crates/svd-daemon/src/strategy/kwin/mod.rs:213-239 | the entry connect is about to write covers the world exactly when the baseline is shown, no other slot has leftovers and the slot is not in use |
| World.StrandedConnectLosesBaseline | crates/svd-daemon/src/main.rs:40-42 | a snapshot taken of a covered world that does not show the baseline makes a journal that has lost it |
| World.StaleJournalCoversIff | crates/svd-daemon/src/strategy/kwin/mod.rs:130-134 | a journal left over a clean world covers a new arrangement of the monitors exactly if that is the one it remembers |
| Histories.DarkWorldIsReached | crates/svd-daemon/src/main.rs:40-42 | a run into the gap: the daemon dies while switching the only monitor off, its successor is refused the journal, every output is off, and the journal of a connect from there would have lost the monitor |
| Histories.StaleJournalUndoesArrangement | crates/svd-daemon/src/strategy/kwin/mod.rs:130-134 | a run, listings and other questions left out, in which a rollback that restores everything cannot delete the journal, the user moves the monitor, and the next start moves it back |
| Histories.FailedCommitComesBack | crates/svd-daemon/src/strategy/kwin/mod.rs:339-344 | from every moment at which a session is under way with its output on, a history in which the last save fails after its rename and the rollback fails without effect, leaving a session to be recovered over a live connected journal |
| Histories.CommitThenRestore | crates/svd-daemon/src/strategy/kwin/mod.rs:339-406 | whenever a commit and its rollback have failed over a live connected journal, a restore without faults takes the memory from recovery to connected |
| World.SnapshotTarget | crates/svd-daemon/src/strategy/kwin/mod.rs:214 | a snapshot remembers exactly the enabled outputs and their positions |
| Strategy.KWinStrategy.Connect | crates/svd-daemon/src/strategy/kwin/mod.rs:167-354 | the calls made are those of a connect, step by step, and the answer and the memory are determined by what they have answered; if none has failed it succeeds exactly if everything is there that it takes; success: memory and journal both say connected, the override is the EDID of the request, only that slot is forced on, the mode shown is the requested one, the output is where the listing before it was shown leaves room for it and exactly the right outputs are on; failure: refused or rolled back with an empty memory and a clean world, as always without a fault, or left to be recovered with the journal kept |
| Courses.ConnectsIff | crates/svd-daemon/src/strategy/kwin/mod.rs:183-353 | a connect none of whose calls has failed succeeds if and only if a card was asked for, configured or listed, an eligible connector of it was read, both have valid names, the name turned up in one of the listings that are allowed, and the mode was shown when it was to be verified |
| Courses.AppearedIff | crates/svd-daemon/src/strategy/kwin/mod.rs:275-291 | the wait is over without a timeout if and only if the name turned up in one of as many listings as are allowed |
| Strategy.KWinStrategy.ConnectAt | crates/svd-daemon/src/strategy/kwin/mod.rs:213-353 | the same from the snapshot on, for the chosen compositor and slot, without the condition for success |
| Strategy.KWinStrategy.Begin | crates/svd-daemon/src/strategy/kwin/mod.rs:213-240 | the outputs are listed, and the journal holds the session's entry before anything is changed; it fails exactly with the error of the listing, for an invalid name, or with the error of the save, and leaves the world clean and the memory empty |
| Strategy.KWinStrategy.Establish | crates/svd-daemon/src/strategy/kwin/mod.rs:242-346 | the mutations and the commit, or at whichever exit the rollback with all its calls; the answer is the error of the step that failed, or that the rollback failed; without a fault everything is rolled back |
| Strategy.KWinStrategy.BringUp | crates/svd-daemon/src/strategy/kwin/mod.rs:242-337 | preparing, waiting and showing as far as they go, with the error of the step that failed; success: the override is written, the slot forced on, the requested mode shown, the other outputs that are on are those before less the ones to disable, and the output is placed by the listing after the wait |
| Strategy.KWinStrategy.Prepare | crates/svd-daemon/src/strategy/kwin/mod.rs:242-273 | override, forgetting, disabling and forcing are called in this order, up to the first that fails, whose error is the answer; they have the stated effects and keep coverage at every step |
| Strategy.KWinStrategy.DisableOutputs | crates/svd-daemon/src/strategy/kwin/mod.rs:257-264 | success: exactly the named outputs have gone off |
| Strategy.KWinStrategy.AwaitOutput | crates/svd-daemon/src/strategy/kwin/mod.rs:275-291 | success: some listings, fewer than the polls, in vain, and one more in whose text the name turns up; a timeout: as many listings as there are polls, all in vain; waiting switches nothing but the virtual output |
| Courses.TurnedUpIff | crates/svd-daemon/src/strategy/kwin/mod.rs:281-285 | at any successful listing of a trail the name turned up if and only if the output was there then, or something else in that very text mentions it |
| Waiting.AwaitedIff | crates/svd-daemon/src/strategy/kwin/mod.rs:281-285 | a name is found in a text, in any case, if and only if its output is listed, or the block of something else or a line before all blocks mentions it |
| Waiting.TurnsUpIff | crates/svd-daemon/src/strategy/kwin/mod.rs:281-285 | in a listing of a screen it is found if and only if the output is there or something else mentions it |
| Waiting.AnotherNameIsEnough | crates/svd-daemon/src/strategy/kwin/mod.rs:282 | which the block of an output does whose own name contains it |
| Strategy.KWinStrategy.Place | crates/svd-daemon/src/strategy/kwin/mod.rs:293-306 | one listing; the position is rightmost on the outputs read from it, or zero if it failed |
| Strategy.KWinStrategy.Show | crates/svd-daemon/src/strategy/kwin/mod.rs:293-322 | a listing and two passes with the place by that listing; success: if the virtual output was there it is on, at the top and right of what that listing showed, or at zero if there was none; the other outputs that are on are the same |
| Strategy.KWinStrategy.LightUp | crates/svd-daemon/src/strategy/kwin/mod.rs:308-322 | two passes that ask for the mode of the session, the computed position and the output to be on, and the answer of the second; success: the virtual output is on there; no other output is switched |
| Strategy.KWinStrategy.Verify | crates/svd-daemon/src/strategy/kwin/mod.rs:324-337 | one listing; the answer is positive exactly if it succeeds and KWin shows the requested mode within half a hertz |
| Strategy.KWinStrategy.Commit | crates/svd-daemon/src/strategy/kwin/mod.rs:339-346 | memory and journal become connected together exactly if the save succeeds, or the session is given up with all the calls of a rollback; a session to be recovered then lies over a connected journal exactly if the failed save had replaced the journal and the recovery save has not |
| Strategy.KWinStrategy.Choose | crates/svd-daemon/src/strategy/kwin/mod.rs:183-211 | compositor, card and slot are chosen from what the calls just made have answered, and so is the error if there is none: the only candidate that listed its outputs, the card asked for or configured or first with the most connected outputs, and the least eligible connector of it; nothing has changed |
| Strategy.KWinStrategy.SelectCard | crates/svd-daemon/src/strategy/kwin/mod.rs:186-205 | the card asked for, else the configured one, else the first with the most connected outputs among the cards just listed, each counted in a reading of its own; an error exactly if the listing failed or was empty |
| Strategy.KWinStrategy.SelectSlot | crates/svd-daemon/src/strategy/kwin/mod.rs:207-208 | the slot is the least eligible connector of the card among those just read and none of the outputs that are on; otherwise the error of the reading, or no slot exactly if none is eligible |
| Strategy.KWinStrategy.FailedConnect | crates/svd-daemon/src/strategy/kwin/mod.rs:124-148 | the calls of a whole cleanup and one more, the deletion or the save of the recovery record by the cleanup's report; by that report empty memory and the original error, or a record to be recovered; what has succeeded is undone; without a fault everything; that record lies over a connected journal exactly if the journal said connected before and has not been replaced |
| Strategy.KWinStrategy.CleanupState | crates/svd-daemon/src/strategy/kwin/mod.rs:96-122 | the calls made are the two passes, forcing off and clearing, each of them whatever the earlier ones answered; the report is the first error of theirs, or that there was no compositor; what succeeded is undone, and success means clean |
| Strategy.KWinStrategy.RestoreLayout | crates/svd-daemon/src/strategy/kwin/mod.rs:102-107 | a successful second pass shows exactly the baseline, whatever part of the first pass was carried out |
| Strategy.KWinStrategy.TakeDown | crates/svd-daemon/src/strategy/kwin/mod.rs:372-381 | all the calls of a cleanup, with or without a compositor, and then the deletion of the journal or, if the cleanup failed, the save of a recovery record; the last call's error goes before the cleanup's; memory is emptied or the recovery record exactly if that call succeeds, and unchanged otherwise; what has succeeded is undone whatever the answer |
| Strategy.KWinStrategy.Disconnect | crates/svd-daemon/src/strategy/kwin/mod.rs:356-382 | the save of the disconnecting record, the search for the compositor and the whole cleanup with its last call; the answer and the memory are determined by them; success: nothing left on disk, in memory or outside; if the first save fails only the journal can have changed; without a fault it succeeds |
| Strategy.KWinStrategy.Restore | crates/svd-daemon/src/strategy/kwin/mod.rs:384-418 | the load, the search for the compositor and a listing; a journal of a live session is adopted with the override and the forced connectors as they were, and exactly then; any other journal gets the whole cleanup with its last call, with or without a compositor; the answer and the memory are determined by them; without a fault it succeeds; it leaves the daemon stranded only with an error, an empty memory, and a refused load or a lost recovery record |
| Strategy.KWinStrategy.RestoreFrom | crates/svd-daemon/src/strategy/kwin/mod.rs:393-417 | the same from a loaded journal on, where only a lost recovery record can strand the daemon |
| Strategy.KWinStrategy.Examine | crates/svd-daemon/src/strategy/kwin/mod.rs:393-402 | the session counts as active exactly if the compositor was found, its outputs could be listed and its output was on then |
| Strategy.KWinStrategy.Status | crates/svd-daemon/src/strategy/kwin/mod.rs:420-446 | connected is reported exactly in the connected phase |
| Strategy.CleanupBetweenSessions | crates/svd-daemon/src/strategy/kwin/mod.rs:172-181 | in the memory writes of a daemon a completed cleanup lies between any session and the next connect |
| Strategy.NeverBackToConnected | crates/svd-daemon/src/strategy/kwin/mod.rs:366-416 | whatever the saves do, a session that is disconnecting, or that is to be recovered and not over a connected journal, never becomes connected without a completed cleanup in between |
| Strategy.EnabledAreTarget | crates/svd-daemon/src/strategy/kwin/mod.rs:215-220 | exclusive mode disables exactly the remembered enabled outputs other than the slot |
| Compositor.ResolveCandidates | crates/svd-daemon/src/strategy/kwin/mod.rs:17-50 | one listing for each candidate in turn, and the resolution of the answers they gave |
| Compositor.ResolveCompositor | crates/svd-daemon/src/strategy/kwin/mod.rs:52-55 | the candidates discovered for the user are probed, and the compositor or the error is the resolution of that, or the error of the discovery |
| Compositor.ResolutionIsUnique | crates/svd-daemon/src/strategy/kwin/mod.rs:45-49 | a compositor is chosen exactly when it is the only candidate that answered |
| Compositor.ResolutionFails | crates/svd-daemon/src/strategy/kwin/mod.rs:45-49 | two that answered make it ambiguous; with none the last error is reported, or that there is no compositor if there was no candidate |
| Compositor.RunOnce | crates/svd-daemon/src/strategy/kwin/kscreen.rs:255-257 | one call with these arguments; a prefix of them is applied on failure and all of them on success |
| Compositor.RunTwice | crates/svd-daemon/src/strategy/kwin/kscreen.rs:270-276 | exactly two calls with the same arguments; the report is the second one's alone; success means all arguments applied after some part of a first pass |
| OutsideCalls.StepKeepsCovered | crates/svd-daemon/src/strategy/kwin/mod.rs:239-271 | whatever a call may do to a covered world, with or without success, the world stays covered as long as the call respects the journal |
| Effects.RestoreRunSettles | crates/svd-daemon/src/strategy/kwin/mod.rs:103-107 | a successful run of the restore arguments shows exactly the remembered layout |
| OutsideCalls.Outside.Save | crates/svd-daemon/src/strategy/kwin/state.rs:29-51 | the journal is the old or the new record, and the new one on success; coverage is kept if the record can undo what is left |
| OutsideCalls.Outside.SetConnectorStatus | crates/svd-daemon/src/strategy/kwin/sysfs.rs:137-142 | forces the connector on or off; coverage is kept if the journal names it |
| OutsideCalls.Outside.Run | crates/svd-daemon/src/strategy/kwin/kscreen.rs:255-257 | any failure leaves a prefix of the arguments applied; coverage is kept if only baseline outputs and the slot are switched on |
| Handler.RealHandler.Handle | crates/svd-daemon/src/handler.rs:62-225 | an invalid request, an unauthorized one and a dry run make no call and get their answers, and so does a status request, with the phase and the session in memory; any other gets the operation it asks for, with the mode, the device, the exclusive flag and the user of that request, and the answer of that operation; an answer that it is connected means that the session serves this very request; an accepted disconnect leaves the baseline and nothing else, an accepted restore that or the live session adopted; the generation grows exactly on a successful connect and before an authorized disconnect or restore |
| Handler.RealHandler.HandleConnect | crates/svd-daemon/src/handler.rs:136-178 | the connect of these parameters, its answer, and a new token exactly if it succeeds |
| Handler.RealHandler.HandleDisconnect | crates/svd-daemon/src/handler.rs:182-194 | a new token and then the disconnect and its answer |
| Handler.RealHandler.HandleRestore | crates/svd-daemon/src/handler.rs:211-223 | a new token and then the restore and its answer |
| StateFile.Store.Save | crates/svd-daemon/src/strategy/kwin/state.rs:29-51 | however it ends the journal is the old file or the whole new one; a reported failure with the new one only after the rename |
| StateFile.Store.Load | crates/svd-daemon/src/strategy/kwin/state.rs:55-95 | computes what is loaded from a file |
| StateFile.LoadedIff | crates/svd-daemon/src/strategy/kwin/state.rs:55-95 | nothing exactly if there is no file, and a record exactly if the file is acceptable, holds it whole and of schema 1, and all its names are valid; anything else is an error |
| StateFile.SnapshotIsLoadedBack | crates/svd-daemon/src/strategy/kwin/kscreen.rs:60-68 | a saved record with valid identifiers whose layout was read from a listing, whatever its text, is loaded back |
| Layout.BuildRestoreArgs | crates/svd-daemon/src/strategy/kwin/mod.rs:151-164 | builds the restore arguments |
| Layout.RestoreMeaningIff | crates/svd-daemon/src/strategy/kwin/mod.rs:151-164 | they give back exactly the remembered outputs and positions, less the slot, precisely on screens where those are plugged in and nothing but them and the slot is on |
| Layout.RestoreIsIdempotent | crates/svd-daemon/src/strategy/kwin/kscreen.rs:266-276 | a second pass changes nothing, on every screen |
| Layout.RestoreNeverGoesDark | crates/svd-daemon/src/strategy/kwin/mod.rs:103-107 | no prefix of the arguments leaves every output off |
| Layout.VirtualX | crates/svd-daemon/src/strategy/kwin/mod.rs:296-306 | one pass over the outputs computes the rightmost edge |
| Layout.RightmostIsGreatest | crates/svd-daemon/src/strategy/kwin/mod.rs:299-305 | which is the greatest wrapped right edge of the other enabled outputs, and zero without any |
| Layout.RightEdgeWraps | crates/svd-daemon/src/strategy/kwin/mod.rs:302 | a right edge is the position plus the width modulo 2^32 |
| Layout.PlacementIsLeastFree | crates/svd-daemon/src/strategy/kwin/mod.rs:293-306 | without wrap-around a display of any size there overlaps none of them, and no smaller x is right of all |
| Telling.ListingTells | crates/svd-daemon/src/strategy/kwin/mod.rs:324-334 | any text whose blocks tell of the outputs of the screen, whatever else is in them and in whatever order, yields the screen as snapshot, and a mode is verified on it if and only if it is on the screen |
| Telling.ReadLikeListing | crates/svd-daemon/src/strategy/kwin/kscreen.rs:49-157 | a text that both parsers read like a listing is a listing of the same screen |
| Telling.ColouredListingTells | crates/svd-daemon/src/strategy/kwin/kscreen.rs:243-244 | the same after control sequences anywhere in it have been stripped and the whole has been trimmed |
| Blocks.BlocksAreRead | crates/svd-daemon/src/strategy/kwin/kscreen.rs:49-157 | of any text both parsers read its blocks: the outputs in their order with the state and the geometry their lines say, and for a mode the last block of the name |
| Blocks.EveryTextIsBlocks | crates/svd-daemon/src/strategy/kwin/kscreen.rs:53-92 | every text is a preface and blocks |
| Trimming.TrimReadsAlike | crates/svd-daemon/src/strategy/kwin/kscreen.rs:243-244 | trimming a text changes nothing of what either parser reads, on every text |
| Listing.SheetIsEntry | crates/svd-daemon/src/strategy/kwin/kscreen.rs:38-48 | an output printed in the documented format, with or without modes, is the block that says this output and its first current mode |
| Listing.ColouredBlocksAreRead | crates/svd-daemon/src/strategy/kwin/kscreen.rs:243-244 | the daemon reads the blocks of any text at all, coloured with complete control sequences anywhere and trimmed |
| Listing.ListingRoundTrip | crates/svd-daemon/src/strategy/kwin/kscreen.rs:38-92 | printing any outputs in the documented format, with or without modes and with any other lines before and after them, colouring the text anywhere, stripping, trimming and parsing gives the list back, and mode verification answers for the last output of the name |
| KScreen.ParseOutputs | crates/svd-daemon/src/strategy/kwin/kscreen.rs:49-92 | one pass over the lines computes the gathered outputs |
| Text.ParseU32Iff | crates/svd-daemon/src/strategy/kwin/kscreen.rs:167-168 | a size is read exactly from digits with or without a plus sign that are worth less than 2^32 |
| Text.ParseI32Iff | crates/svd-daemon/src/strategy/kwin/kscreen.rs:165-166 | a position is read exactly from digits with any sign or none that are worth a number of 32 bits |
| KScreen.ActiveModeMatches | crates/svd-daemon/src/strategy/kwin/kscreen.rs:116-157 | one pass over the lines computes the probe's verdict |
| Rates.RateOfNumeral | crates/svd-daemon/src/strategy/kwin/kscreen.rs:112 | the text of a rate with digits, perhaps a point, a sign and an exponent, is worth the fraction of whole numbers it stands for |
| Rates.RateIsNumeral | crates/svd-daemon/src/strategy/kwin/kscreen.rs:112 | and every text that is read as a number is such a numeral |
| Rates.RateIsNumberIff | crates/svd-daemon/src/strategy/kwin/kscreen.rs:112 | what else is read as a rate is infinity or no number |
| Rates.TokenMatchesIff | crates/svd-daemon/src/strategy/kwin/kscreen.rs:151-155 | a printed mode is verified if and only if it is current, has the sizes asked for and its rate is within half a hertz, decided in whole numbers |
| KScreen.ProbeReflectsBlocks | crates/svd-daemon/src/strategy/kwin/kscreen.rs:127-149 | for every text the probe reports the last block of the connector, its last enabled or disabled line and its last modes line |
| KScreen.ParsersAgree | crates/svd-daemon/src/strategy/kwin/kscreen.rs:49-157 | for every text the probe's enabled flag is that of the last output of the name that parsing yields |
| KScreen.VerifiedModeIsListedEnabled | crates/svd-daemon/src/strategy/kwin/kscreen.rs:151-156 | a verified connector is listed as enabled by the other parser |
| Ansi.StripAnsiCsi | crates/svd-daemon/src/strategy/kwin/kscreen.rs:176-199 | the loop computes the stripped text |
| Ansi.ControlsAreErased | crates/svd-daemon/src/strategy/kwin/kscreen.rs:184-191 | complete control sequences are erased and every other character stays |
| Ansi.EscapeSurvivesIff | crates/svd-daemon/src/strategy/kwin/kscreen.rs:192-195 | an escape character survives exactly when a doubled escape is met |
| Ansi.StripIsIdempotentIff | crates/svd-daemon/src/strategy/kwin/kscreen.rs:176-199 | stripping twice is stripping once exactly when none survives |
| Ansi.StripIsNotIdempotent | crates/svd-daemon/src/strategy/kwin/kscreen.rs:192-194 | a text on which it is not |
| Edid.Generate | crates/svd-daemon/src/strategy/kwin/edid.rs:16-193 | fills the buffer section by section to the block of the request |
| Edid.TimingFixpoint | crates/svd-daemon/src/strategy/kwin/edid.rs:84-102 | for every request in range the recomputed blanking is the estimate, both clocks agree and every intermediate fits its type |
| Edid.TimingRoundTrip | crates/svd-daemon/src/strategy/kwin/edid.rs:104-130 | decoding gives the exact clock, blanking and sync, the sizes modulo 4096, and sync lies inside the blanking |
| Edid.ActiveSizeIsExactIff | crates/svd-daemon/src/strategy/kwin/edid.rs:109-116 | the decoded size is the requested one exactly below 4096 on both axes |
| Edid.RateIsAcceptedIff | crates/svd-daemon/src/strategy/kwin/edid.rs:100-102 | the emitted rate never exceeds the request, is below it exactly when clock is lost, and is accepted exactly when twice the loss is at most the frame size |
| Edid.UnsaturatedRateIsAccepted | crates/svd-daemon/src/strategy/kwin/kscreen.rs:154 | below saturation and from 20000 pixels a frame on it is accepted |
| Edid.SaturatedRateIsLower | crates/svd-daemon/src/strategy/kwin/edid.rs:102 | at saturation it is strictly lower |
| Edid.BuiltInModesAreAccepted | crates/svd-proto/src/lib.rs:244-258 | every built-in mode is emitted with an acceptable rate |
| Edid.DocumentedExtraModesAreRejected | deploy/config.toml.example:32-75 | 2560x1440@165 and 3840x2160@120 are not |
| Edid.DecodedRate | crates/svd-daemon/src/strategy/kwin/edid.rs:104-116 | below 4096 the rate decoded from the bytes is the emitted rate |
| Edid.ChecksumCloses | crates/svd-daemon/src/strategy/kwin/edid.rs:188-209 | the 128 bytes add up to zero modulo 256 |
| Edid.ManufacturerRoundTrip | crates/svd-daemon/src/strategy/kwin/edid.rs:195-203 | the three packed letters decode to themselves |
| Edid.SerialFields | crates/svd-daemon/src/strategy/kwin/edid.rs:35-36 | the serial's fields, with heights from 4096 up spilling into the width |
| Edid.SerialRoundTrip | crates/svd-daemon/src/strategy/kwin/edid.rs:37-40 | the four bytes hold the whole serial |
| Edid.SerialsCollideIff | crates/svd-daemon/src/strategy/kwin/edid.rs:35-36 | two requests share a serial exactly when these fields agree |
| Edid.RangeLimitsContainRequestIff | crates/svd-daemon/src/strategy/kwin/edid.rs:156-164 | the advertised vertical rates are 20 Hz below and above the requested one, within 24 and 255, and contain it exactly up to 255 Hz |
| Edid.RangeLimitsContainLineRateIff | crates/svd-daemon/src/strategy/kwin/edid.rs:165-166 | the advertised horizontal rates contain the emitted one exactly if the lines per second asked for are at least 30000 and, up to what the clock is rounded down by, at most 160000, or the line is too wide for the clock to get there |
| Edid.BuiltInModesExceedLineRates | crates/svd-daemon/src/strategy/kwin/edid.rs:165-166 | 1280x720@30 is below them and 2560x1440@120 above |
| Watchers.TokensAreExclusive | crates/svd-daemon/src/handler.rs:149-157 | in every interleaving no watcher disconnects twice and at most one holds the current token |
| Watchers.CurrentTokenIsOwnIff | crates/svd-daemon/src/watcher.rs:119-123 | a watcher with the current token looks at its own session exactly when the session in place has its token minted |
| Watchers.OnlyOwnSessions | crates/svd-daemon/src/watcher.rs:118-125 | with check and disconnect as one step and no sleep disconnect, every teardown is of the watcher's own session |
| Watchers.StaleCheckTearsAnother | crates/svd-daemon/src/watcher.rs:119-120 | an interleaving in which the check is stale |
| Watchers.SleepLetsTearAnother | crates/svd-daemon/src/sleep.rs:183-187 | an interleaving in which a sleep disconnect leaves the old token current |
| Watchers.RestoredIsUnwatched | crates/svd-daemon/src/handler.rs:211-213 | from the bump of a restore until the next token, no watcher holds the current one |
| Watchers.WatchLoop | crates/svd-daemon/src/watcher.rs:99-126 | disconnects exactly if in some turn, after only quiet turns with the token current, Sunshine has exited and the token is read as current once more |
| Ancestry.FindSunshineAncestor | crates/svd-daemon/src/watcher.rs:45-62 | finds the nearest Sunshine in fewer than 32 steps up a path owned by the user, and none exactly when there is none |
| Ancestry.AncestorIsUnique | crates/svd-daemon/src/watcher.rs:49-58 | there is at most one such process |
| Sysfs.FindEmptySlot | crates/svd-daemon/src/strategy/kwin/sysfs.rs:97-133 | the least eligible connector, DisplayPort before HDMI; none exactly when none is eligible |
| Sysfs.EligibleIff | crates/svd-daemon/src/strategy/kwin/sysfs.rs:97-133 | an entry makes a connector eligible exactly if its name is that of the card and a DisplayPort or HDMI connector, and its status says disconnected or off |
| Sysfs.EligibleInJoined | crates/svd-daemon/src/strategy/kwin/sysfs.rs:97-133 | the eligible connectors of a directory are those of its entries, one by one: nothing else in the directory makes or unmakes one |
| Sysfs.CountIsOfConnected | crates/svd-daemon/src/strategy/kwin/sysfs.rs:67-91 | the count is the number of entries of the card whose status says connected |
| Sysfs.SlotIsStable | crates/svd-daemon/src/strategy/kwin/sysfs.rs:113-117 | after the slot has been used and switched off the search answers with it again and with no other |
| Cards.SelectBest | crates/svd-daemon/src/strategy/kwin/mod.rs:194-204 | one reading of the connectors for each card in turn, a failed one counting as none and any other as many as say connected, and the first card with the greatest count |
| Framing.ReadFrame | crates/svd-proto/src/framing.rs:34-60 | reads byte by byte what the specification reads |
| Framing.WriteFrame | crates/svd-proto/src/framing.rs:66-81 | appends content and newline, or refuses what is too large and appends nothing |
| Framing.ReadsExactlyFrames | crates/svd-proto/src/framing.rs:45-58 | a content is read exactly when it is one the writer accepts, valid and without newline, and exactly its own bytes are consumed |
| Framing.WrittenFramesAreReadBack | crates/svd-proto/src/framing.rs:34-81 | any sequence of written frames is read back one by one |
| Proto.ServerAcceptsExactly | crates/svd-proto/src/lib.rs:332-380 | the daemon accepts a connect exactly when the client would have sent it and its mode is allowed, that is in range and built in or configured, and its device is a card |
| Proto.ServerRefuses | crates/svd-proto/src/lib.rs:332-380 | and which error it is otherwise: out of range, then not allowed, then a disallowed character, then no card |

## Left out

- Daemon.Run: stops before the event that would break the invariant, where the real daemon goes on; what would be lost then is said by `World.StrandedConnectLosesBaseline` and `World.StaleJournalCoversIff`.
- Strategy.KWinStrategy.Connect: requires a daemon that is not stranded, since the invariant is lost otherwise; `World.BeginCoversIff` has the exact condition.
- Histories.StaleJournalUndoesArrangement: the calls by which the restore finds the compositor and lists the outputs are left out of the run, as they leave the world as it is.
- Strategy.KWinStrategy.AwaitOutput: wall-clock waiting is a given number of polls.
- OutsideCalls.Outside.ReadConnectors: takes as given that an idle connector is not among the outputs that are on, which holds where connector names are unique across cards.
- OutsideCalls.Outside.Run: takes as given that a success report means all arguments were applied; which mode KWin chooses and where it moves outputs it was not told to place is open.
- OutsideCalls.Outside.ListOutputs: takes as given that a listing is true when it is taken, that KWin notices a forced connector during that call and only until its output has come on, and that it switches no output off by itself.
- OutsideCalls.Outside.Arrange: the user rearranges the monitors between operations, not during one.
- OutsideCalls.Outside.Save: the journal is a value; that each save leaves the old or the new record whole is proved separately about `StateFile.Store`, where loss of power is not modelled.
- Ancestry.FindSunshineAncestor: takes what the process table says as parsed; the text of /proc/PID/status is not modelled.
- KScreen.ActiveModeMatches: rates are exact decimals; rounding to 64-bit floating point is not modelled.
- Watchers.OnlyOwnSessions: the generation counter is unbounded; a session is an identity and the strategy's operations are single steps.
- Edid.Generate: the floating-point estimate of the size in centimetres is a parameter.
- Arguments of `kscreen-doctor` are structured values; their text form, like that of modes in replies, is not modelled.
- Discovery of sessions under /run/user, KWin's own configuration file, physical modes and scales, D-Bus, sockets, peer credentials, serde, configuration loading, logging and the command line client.
- The sequence of `handler.rs` and `watcher.rs` within one daemon's run is serialised in `Daemon.Run`, as the strategy's mutex does; their interleaving is in `Watchers`.
