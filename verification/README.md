# Connection recovery in oxutrm: a Dafny model

oxutrm is a remote terminal whose session outlives its network. This project models the parts of
it that have to be right in every run -- who owns a link, who may give an attempt up, what is
shown, kept and lost -- and proves them for all inputs and all interleavings.

Each module has the same shape. The operations are functions on values; where the source changes
things in place, a class with the same fields has methods proved to do what those functions say.
The functions are put together into a transition system in which everything the outside decides
(clocks, frames, failing writes, peers that close, tasks whose abort has not landed) is an
argument of a step, and a step that is not enabled changes nothing. The theorems are about every
finite run of that system, by induction over the run.

| module | models |
|---|---|
| `RebuildRace` | an ssh rebuild racing a failover to the standby (`src/rebuild.rs`) |
| `HostSession` | link ownership in the host's loop (`src/host_session.rs`) |
| `Handover` | the two joined: the client's rebuild and failover against the host's loop (`src/rebuild.rs`, `src/host_session.rs`, with `fail_over` from `src/session.rs`) |
| `Calendar` | days to dates, and timestamps (`src/activity.rs`) |
| `ActivityLog` | the ring and the run-length-folded file (`src/activity.rs`) |
| `LogRotation` | the file shared and rotated between clients (`src/activity.rs`) |
| `FrameSink` | at most one live stream writer (`src/link.rs`) |
| `LinkState` | outage judgement, retry schedule and held input (`src/linkstate.rs`, with the order of a lap from `src/session.rs`) |
| `HeldInput` | the cut and the rendering of held bytes (`src/linkstate.rs`) |
| `Config` | layered settings with live edits (`src/config.rs`) |
| `AttachLoop` | the serial attach loop and the session record (`src/listener.rs`, `src/door.rs`) |

`Options`, `Bytes`, `Decimals` and `Histories`, in `Shared.dfy`, are what they share. `dafny verify
dfyconfig.toml` checks all of it.

## What the outside is taken to be

- **Call order.** An attempt is begun only when none is running and, in `LinkState`, only at or
  after `next_try`; held input is taken or dropped only while `Confirming`; a lap evaluates,
  sends a heartbeat that is due, and then looks at the rebuild (src/session.rs:1488-1517,
  1772-1799, 2642-2648).
- **Replies.** A reply is owed from the start of a session, from a landing, and from anything sent,
  until a frame acknowledges all of it; a host acknowledges only what it was sent. Typed input and
  resizes are sent without being noted as sent (src/session.rs:1193-1199, 2211-2213); only a
  heartbeat is (src/session.rs:1497).
- **The emulator** is its three counters: output only adds to them, and a new shell counts on
  from the screen it is given. The sync sender is the counters of the state it would offer, and
  the receiver is a tag: the link and the generation it was made for.
- **Timings.** `recovery.rebuild_after` is never set under 5 s (src/config.rs:304-312);
  `StartsAreSpaced` asks for one second.
- **The attach generation** moves when an exchange takes its keys
  (crates/oxutrm-host/src/keys.rs:121-125), whether or not the exchange then completes.

## Where the code and its words differ

- src/rebuild.rs:717-727 says that only a stand-down can leave a landing of an attempt already
  given up. A retarget can too: it cancels without claiming the line (src/rebuild.rs:552-557).
  `HandedOnExactly` says that these two are all, and `LandsAfterRetarget` is a run.
- The latch is documented as saying whether a takeover may be the client's own doing. `LatchExact`
  says exactly when it is up, `TakeoverIsExcused` what that is worth against the host, and
  `AdoptedAfterStandDown` is a run in which it is down while the client's own attempt is adopted.
- src/linkstate.rs:328-333 says a heartbeat is due once nothing has been said in either direction
  for HEARTBEAT_IDLE. What is typed is not noted as sent, so it puts no heartbeat off.
  `HeartbeatExactly` says when one is due, `HeartbeatAsWorded` exactly when that differs from the
  words, and `TypingPutsNoHeartbeatOff` is a run.
- The counters are meant never to fall. They can, once: `finish` polls and offers without
  looking at the stale screen, so a session that ends on a turn that found its new client away
  offers the blank of the adoption. `LastOfferHollowIff` and `LastOfferFallsIff` give the exact
  condition over the run, and `LastOfferCanFall` is such a run.
- A reset on the settings screen is described as dropping an unsaved change. It also applies what
  the screen then shows, which is a change of its own where a save has read in a hand edit.
  `ResetUndoesSet` is the exact condition, for every row and edit, and `HandEditWaits` a run.
- The cut of held input is described as splitting no character and stopping a little short of
  its limit. That holds of text (`TextIsShownWhole`); of any bytes it holds exactly where
  `CutIsNearIff` says, and `ContinuationsShowNothing` shows bytes being cut to nothing.

## Model

| member | source | states |
|---|---|---|
| `RebuildRace.InvHolds` | src/rebuild.rs:265-294 | Over every interleaving of the loop, any number of attempt tasks (some with an abort still to land), the report channel and the host: generations number the attempts, at most one is held, a Choose implies a committed line, an abandoned line is exactly a given-up attempt, and every report is of an ended attempt and the only one of its generation |
| `RebuildRace.AbandonedNeverChooses` | src/rebuild.rs:459-468 | An attempt given up for the standby has not sent its Choose, is not adopted and does not land; one that has sent its Choose cannot be abandoned |
| `RebuildRace.GivenUpIsForGood` | src/rebuild.rs:615-621 | The same at every later point of every run: no later step of anybody lets a given-up attempt choose or be adopted |
| `RebuildRace.AbandonWinsUnlessCommitted` | src/rebuild.rs:615-621 | In every reachable state an abandon gives the attempt in flight up if and only if it has not committed; the latch stays, and otherwise nothing at all changes |
| `RebuildRace.ClaimWinsUnlessGivenUp` | src/rebuild.rs:459-461 | A task that has its offer clears the line if and only if it was not given up first; one that was ends there, for a retry |
| `RebuildRace.EveryEndIsReported` | src/rebuild.rs:675-706 | An attempt that comes to an end reports its own outcome under its own generation, once, however late and whatever the loop did meanwhile, unless its abort has landed or the session is gone |
| `RebuildRace.AbortedIsSilent` | src/rebuild.rs:755-760 | An abort lands only on an attempt let go of, and after it, in every run, that attempt sends no Choose and no report |
| `RebuildRace.HandedOnExactly` | src/rebuild.rs:729-739 | Every landing read is handed on; a failure is handed on if and only if its attempt was the one in flight; no attempt is heard twice; what is handed on of an attempt already let go of is exactly the landings of those stood down or retargeted |
| `RebuildRace.LandsAfterRetarget` | src/rebuild.rs:552-557 | A run in which an attempt let go of by a retarget lands and is handed on |
| `RebuildRace.StaleReportChangesNothing` | src/rebuild.rs:708-739 | Reading a report of an attempt that is not in flight changes no state of the rebuild; a landing, swapped in all the same, moves the latch alone |
| `RebuildRace.LatchExact` | src/rebuild.rs:626-706 | After every run, the displacing latch is up if and only if an attempt was started with no stand-down, and no swap with nothing in flight, since |
| `RebuildRace.InFlightIsLatched` | src/rebuild.rs:675-690 | An attempt in flight implies the latch and a running clock, and it goes to the client's current aim: a retarget leaves none running for another |
| `RebuildRace.AimFollowsTheClient` | src/rebuild.rs:552-557 | The next attempt goes where the client was last sent, whatever attempts did meanwhile |
| `RebuildRace.AdoptedAfterStandDown` | src/rebuild.rs:655-672 | A run in which the host adopts an attempt while the latch is down: a stand-down does not claim the line, so a Choose already out may still be taken |
| `RebuildRace.Commitment.Claim` | src/rebuild.rs:285-289 | The compare-and-swap: it wins exactly when nobody has, and only then moves the line |
| `RebuildRace.Rebuild.BeginAttempt` | src/rebuild.rs:675-706 | A new generation with a line of its own, in flight, and the latch set |
| `RebuildRace.Rebuild.CancelAttempt` | src/rebuild.rs:755-760 | Lets go of the attempt in flight and claims nothing; reports whether there was one |
| `RebuildRace.Rebuild.AbandonAttempt` | src/rebuild.rs:615-621 | Gives the attempt up if and only if its line could be claimed; otherwise nothing changes |
| `RebuildRace.Rebuild.StandDownNow` | src/rebuild.rs:669-672 | Cancels and drops the latch |
| `RebuildRace.Rebuild.RetargetTo` | src/rebuild.rs:552-557 | Cancels only when the aim is another one; the latch stays |
| `RebuildRace.Rebuild.NoteSwapped` | src/rebuild.rs:647-649 | The latch becomes whether anything is in flight |
| `RebuildRace.Rebuild.AcceptReport` | src/rebuild.rs:729-744 | Ends the attempt in flight on its own report only, and hands on what the specification says |
| `RebuildRace.Rebuild.StageNow` | src/rebuild.rs:596-604 | Idle, connecting or committed, by the attempt's line |
| `HostSession.FramesMeetTheirReceiver` | src/host_session.rs:595-602 | Over every run, each frame fed to the input receiver came in on the link that receiver was made for, and its generation is the only one at which that link was adopted; so a promoted standby's first frame is fed after the reset and no old frame reaches a new generation |
| `HostSession.LinksHaveOneOwner` | src/host_session.rs:567-815 | Over every run without I/O errors, each link handed in is current, parked, owed a promotion, or let go of once with the close reason of what displaced it (or its peer's own close); no link is adopted twice; nothing is parked on return; no standby parked before a primary attach is promoted after it |
| `HostSession.StandbyFrameSwitches` | src/host_session.rs:1060-1064 | Failing over: a frame on the parked standby makes it the current link, with a new generation whose receiver is fed that frame first, and closes the link it replaces as switched |
| `HostSession.ShellEndIsTold` | src/host_session.rs:921-923 | Over every run, a lap that reports the shell's end returns its status and closes the current link with it -- as 255 where it is no 32-bit status -- unless the peer had closed it |
| `HostSession.CountsNeverFall` | src/host_session.rs:404-424 | Over every run, across kill-to-lobby, lobby resizes, new shells, detach, adoption and failover, each state offered counts at least as many bells, scrolled lines and copies as every one before; only the last offer of a session can be an exception, and then it is an adoption's blank |
| `HostSession.OffersAreCurrent` | src/host_session.rs:399-427 | Over every run a turn offers a state if and only if its client is there and a frame is due and owed, and that state has the shell's own counts at that moment |
| `HostSession.HollowExactly` | src/host_session.rs:985-998 | Over every run, the sender still holds an adoption's blank if and only if a link was adopted over a shell and no turn since has found its client there |
| `HostSession.LastOfferHollowIff` | src/host_session.rs:895-906 | When that exception happens, over whole runs: if and only if, the ending lap included, a link was adopted over the shell and no turn since found its client there, no kill took the shell and the last poll moved nothing |
| `HostSession.LastOfferFallsIff` | src/host_session.rs:895-906 | Over whole runs: the last offer falls below an earlier one if and only if that exception happens and something offered before it counted at all |
| `HostSession.LastOfferCanFall` | src/host_session.rs:895-906 | A run in which it does: the last state, on an open link, has a bell count of zero after one of one |
| `HostSession.TurnSameLinks` | src/host_session.rs:313-427 | A turn changes no link, no receiver and no close reason, and feeds the receiver only its own link's frames and the frame it was given |
| `HostSession.TurnKeepsClimbing` | src/host_session.rs:399-427 | A turn that finds its client there fills an adoption's blank before it offers anything; a turn that does not offers nothing |
| `HostSession.AttachedExactly` | src/host_session.rs:399-402 | A client counts as attached if and only if its link is open and its last frame, this turn's included, is less than the detach time old |
| `HostSession.ShellIsDrained` | src/host_session.rs:406-418 | Every turn drains the shell, heard or not, and a snapshot is owed afterwards only where nobody listens |
| `HostSession.SizeIsTheClients` | src/host_session.rs:371-374 | Over every run the size is the last one said: by a primary that attached, or by a frame of the client with neither side zero; shells, lobbies and failovers leave it alone |
| `HostSession.KillHasAShell` | src/host_session.rs:603-645 | Over every run, a kill in progress has a shell, is over on exactly the lap that finds it exited or reaped, then ends the session with that status or leaves a lobby with the shell's last counts and nothing parked, and begins if and only if there is a shell and no kill yet |
| `HostSession.HostedSession.Lobby` | src/host_session.rs:200-232 | A session with no shell, on the first link, with a blank screen |
| `HostSession.HostedSession.TakeInFrames` | src/host_session.rs:319-374 | The inbound half of a turn: the frame owed first, then every frame waiting, in order, each to the current receiver; then copies and the size asked for |
| `HostSession.HostedSession.PutOutScreen` | src/host_session.rs:399-427 | The outbound half: the shell is drained whether or not anybody listens, a snapshot is taken only for a client that is there, and a frame offered only when it is due and owed |
| `HostSession.HostedSession.TurnAt` | src/host_session.rs:313-427 | One turn, as the two halves, and the exit status it found |
| `HostSession.HostedSession.ResizeTo` | src/host_session.rs:502-516 | A new size; a lobby's screen keeps its counts |
| `HostSession.HostedSession.AdoptLink` | src/host_session.rs:951-1005 | The displaced link closed for its cause, a new generation's receiver for the new one, and the sender blank except in a lobby, whose counts carry over |
| `HostSession.HostedSession.ToLobby` | src/host_session.rs:266-276 | The shell gone, its last counts kept on the lobby's screen |
| `HostSession.HostedSession.StartTheShell` | src/host_session.rs:236-257 | A new shell that counts on from the screen before it |
| `HostSession.HostedSession.FinishWith` | src/host_session.rs:895-923 | The last poll, the last offer and the close with the exit code |
| `HostSession.HostLoop.BeginLap` | src/host_session.rs:594-602 | The promotion owed, or the frame owed, or a plain turn -- with nothing owed afterwards |
| `HostSession.HostLoop.Attach` | src/host_session.rs:1012-1057 | A primary drops the parked standby and takes over; a standby takes the parked slot |
| `HostSession.HostLoop.EndTheKill` | src/host_session.rs:603-645 | A kill that is over ends the session or leaves a lobby, and what becomes of the parked link |
| `HostSession.HostLoop.End` | src/host_session.rs:646-654 | The end of the session: the parked standby closed as exited, then the finish |
| `HostSession.HostLoop.StartLobbyShell` | src/host_session.rs:769-788 | A shell only in a lobby; still a lobby where starting or watching it fails |
| `HostSession.HostLoop.Wakes` | src/host_session.rs:744-815 | What each wake does to the pending frame, the parked link, the promotion and the kill |
| `HostSession.HostLoop.OneLap` | src/host_session.rs:594-815 | One lap, in place, is one step of the specification |
| `HostSession.HostLoop.Run` | src/host_session.rs:567-815 | The whole loop, in place, refines the runs the theorems are about |
| `Handover.EachSideIsARun` | src/session.rs:1935-1973 | In every joint run the client's side is a run of `RebuildRace` and the host's one of `HostSession`, so both sides' theorems hold of it |
| `Handover.NoneTakenOverByTheAbandoned` | src/rebuild.rs:230-240 | In every joint run, a link closed as taken over was displaced by an adopted primary, and if that was one of the client's attempts, by one whose Choose was out and which was not given up |
| `Handover.PromotedStandbyIsSafe` | src/rebuild.rs:230-240 | A standby failed over onto after giving an attempt up is at no later point of any run closed as taken over by that attempt, which sends no Choose, is handed to the host by nobody and is not adopted |
| `Handover.FailoverReachesTheHost` | src/session.rs:1935-1973 | The first lap of the host that wakes to the client's frame on its standby makes the next turn the standby's, fed that frame first, with the old link closed as switched and the attempt in flight given up |
| `Handover.AbandonsAndFailsOver` | src/session.rs:1935-1973 | A run in which the client gives a connecting attempt up and fails over, and the attempt finds its line gone |
| `Handover.TakeoverIsExcused` | src/rebuild.rs:626-638 | In every joint run, once the host has adopted one of the client's attempts the latch is up, unless the outage ended after that attempt began |
| `Calendar.YearOfEraExact` | src/activity.rs:411-413 | The division trick gives the right year for every one of the 146,097 days of an era |
| `Calendar.CivilOfDayNumber` | src/activity.rs:408-419 | The code undoes the Gregorian day count, for every date of every year |
| `Calendar.DayNumberOfCivil` | src/activity.rs:408-419 | The day count undoes the code, for every integer; the result is always a date |
| `Calendar.CivilIsTheCalendar` | src/activity.rs:403-419 | Day 0 is 1 January 1970 and day n + 1 is the Gregorian successor of day n, for every integer n |
| `Calendar.CivilMonotone` | src/activity.rs:408-419 | A later day is a later date |
| `Calendar.TimestampsSort` | src/activity.rs:389-399 | Timestamps of years up to 9999 sort as strings exactly as their times do, to the second (sections 5.1 and 5.6 of RFC 3339) |
| `ActivityLog.KeptStep` | src/activity.rs:199-212 | One push with its eviction takes the closed form of a history to the closed form of the longer one |
| `ActivityLog.NewestKept` | src/activity.rs:199-212 | The newest entry is never the one let go of |
| `ActivityLog.RingClosedForm` | src/activity.rs:158-212 | After every run the ring is the closed form of everything ever pushed: the last shown entries that fit (one place fewer when the newest is a detail) and the last details that fit in the rest, in push order; and the file is what it would be with no bound on the ring |
| `ActivityLog.FileLossless` | src/activity.rs:158-279 | While no write has failed, the file's lines and the open run expand to exactly the recorded sequence -- after the drop, the lines alone -- if and only if no run is longer than its 32-bit counter can say; after a failed write the lines are still a prefix where none is |
| `ActivityLog.UncountedIffTooLong` | src/activity.rs:169-178 | A repeat meets a saturated counter if and only if some run is longer than 2^32 records |
| `ActivityLog.FileStaysOn` | src/activity.rs:246-270 | The file is on for as long as no write fails |
| `ActivityLog.Activity.constructor` | src/activity.rs:101-131 | An empty log, or one entry saying why there is no file |
| `ActivityLog.Activity.PushEntry` | src/activity.rs:203-212 | The eviction loop: details oldest first, shown entries only when no detail but the newest entry is left |
| `ActivityLog.Activity.TellFileOff` | src/activity.rs:257-270 | The file is off and one entry says so |
| `ActivityLog.Activity.WriteOut` | src/activity.rs:246-254 | A line appended, or the file off |
| `ActivityLog.Activity.EndTheRun` | src/activity.rs:216-230 | The open run, if it repeated, written as one line |
| `ActivityLog.Activity.RecordEntry` | src/activity.rs:158-192 | A repeat folds into the newest entry; anything else ends the run, is pushed, and is written |
| `LogRotation.WriteGoesToTheLog` | src/activity.rs:313-330 | A write by any client, whatever file its handle was on, goes to what is client.log when it is done and touches no other file |
| `LogRotation.WriteContents` | src/activity.rs:313-347 | What a write leaves under the two names: a rotation exactly when the line would pass the cap of a file that is not empty |
| `LogRotation.OpenedIsHeld` | src/activity.rs:289-295 | A client writes from the moment it opens the log, and its handle is then on what is client.log |
| `LogRotation.RotationInvariant` | src/activity.rs:313-347 | For any number of clients, any interleaving and any deletion of the file: neither file passes the cap unless it is a single line that does, and the two are a contiguous suffix of the lines written less those of a file deleted |
| `LogRotation.LostOnlyAboveCap` | src/activity.rs:313-347 | Nothing written is missing until the two files hold more than the cap |
| `LogRotation.TwoFilesHoldTheLatest` | src/activity.rs:313-347 | With every line within the cap and no deletion: both files within the cap, and together everything written or more than the cap's worth of the latest of it |
| `LogRotation.FileSystem.OpenAppend` | src/activity.rs:367-369 | Opens what is client.log, or makes it |
| `LogRotation.LogFile.RotateNow` | src/activity.rs:340-347 | Renames client.log if it is there and opens a new one |
| `LogRotation.LogFile.Write` | src/activity.rs:313-330 | Follows a rotation by another client, makes room, appends |
| `FrameSink.AtMostOneLive` | src/link.rs:251-337 | In every interleaving of sends and writer steps at most one writer is neither done nor cancelled and it is the sink's entry; a writer is cancelled only by a strictly newer state, which is the next writer's, the final frame or the end of the sink; and a stream is reset only for a cancel |
| `FrameSink.OnlyItsOwnFlagRetires` | src/link.rs:123-162 | Whatever an older writer does, the entry stays, and is retired by its own writer's flag alone |
| `FrameSink.SendSpawnsUnlessNewer` | src/link.rs:251-337 | With any writer steps between its two halves, a send spawns a writer for its state if and only if the entry, as its flag read, is not for one as new; so a state whose writer stopped can always be sent again |
| `FrameSink.DoneExactly` | src/link.rs:283-326 | Over every run a writer is done in a given way if and only if at some point it left that way: delivered only by writing all of an opened stream, reset only by seeing its cancel on one, cut short only by being dropped on one |
| `FrameSink.LeavesAndCancelsAreFinal` | src/link.rs:123-162 | Over every run a writer keeps its state, leaves once and is cancelled at most once, for one cause |
| `FrameSink.RetryAfterLeaving` | src/link.rs:251-259 | After the sink's writer has left, however it did, the next send of any state spawns a writer and cancels nothing |
| `FrameSink.NoneLiveAtTheEnd` | src/link.rs:374-378 | Once the last frame is being sent or the sink is gone, no writer of before is live at any later point of any run, and until something is sent again there is no entry and no new writer |
| `FrameSink.WriterTask.Run` | src/link.rs:283-326 | A step of the writer, a drop of the task at any stage included; it sets its own flag wherever it leaves from |
| `FrameSink.StreamSink.ReapEntry` | src/link.rs:251-259 | Lets go of an entry whose flag is up, and of no other |
| `FrameSink.StreamSink.DropEntry` | src/link.rs:261-275 | Drops the entry and its cancel handle, which cancels that writer and no other |
| `FrameSink.StreamSink.Spawn` | src/link.rs:276-337 | A writer with a flag and a handle nobody else has |
| `FrameSink.StreamSink.SendOnStream` | src/link.rs:251-337 | With the real shared flags: reap, refuse or supersede, spawn; and what it reports of it |
| `FrameSink.StreamSink.Send` | src/link.rs:187-227 | The channel by size; the writers are touched by a frame too big for a datagram and within the cap, and by no other |
| `FrameSink.StreamSink.LetGoForFinal` | src/link.rs:374-378 | The entry is let go of; superseded if and only if its writer was still at it |
| `FrameSink.StreamSink.RunTask` | src/link.rs:283-326 | A task's step moves nothing the sink reads of any other task |
| `LinkState.JudgementSound` | src/linkstate.rs:347-402 | Over every history: an outage is declared only by a lap, after a reply was owed on every lap for at least silent_after with nothing heard; its clock is always the last frame's; a rebuild is due only from an outage already declared and rebuild_after past the last frame; and only a frame ends one |
| `LinkState.RetuneActsAtOnce` | src/linkstate.rs:271-277 | New timings act on the next lap: silence already under way becomes an outage, or a rebuild, if and only if it has lasted the new time |
| `LinkState.DetectionBound` | src/linkstate.rs:324-402 | With laps at most delta apart and the user free to type, a silent host is in an outage by its last frame + HEARTBEAT_IDLE + silent_after + 3 delta, and Recovering within one lap of the later of that and rebuild_after |
| `LinkState.StartsAreSpaced` | src/linkstate.rs:405-452 | Over every run: a start after n failures is at least the sum of min(2^k, 8) s, k = 1..n, after the first of its outage; no two starts of a session are under 1 s apart, however attempts end |
| `LinkState.RecoveryNeverIdles` | src/session.rs:1772-1799 | After every lap of an outage being rebuilt from, an attempt is running or the next is at most eight seconds off, and one that was due -- the first of an outage at once -- has started on that lap; a lap that finds no such outage leaves none running |
| `LinkState.LandedLinkIsLeftAlone` | src/linkstate.rs:434-441 | With nothing heard since, and whatever else happens, no attempt starts within a second of a landing |
| `LinkState.HeartbeatExactly` | src/linkstate.rs:334-337 | Over every run, whatever is typed, a heartbeat is due if and only if the host has not been heard and no heartbeat has gone out for HEARTBEAT_IDLE |
| `LinkState.HeartbeatAsWorded` | src/linkstate.rs:328-337 | One is always due when both directions were quiet that long, and is due without that if and only if something was typed within that time and nothing heard |
| `LinkState.TypingPutsNoHeartbeatOff` | src/session.rs:1193-1199 | A run: a key 4.9 s after the last frame, and a heartbeat due 0.1 s later |
| `LinkState.HeartbeatIsOwed` | src/session.rs:1490-1499 | A lap that finds a heartbeat due leaves a reply owed |
| `LinkState.AttemptCountsFailures` | src/linkstate.rs:444-452 | The attempt number is the number of failures since a frame was heard or a link landed, saturating at 32 bits |
| `LinkState.BackoffIsCappedDoubling` | src/linkstate.rs:60-62 | The table of waits is doubling capped at eight seconds, for every attempt number |
| `LinkState.HeldIsTheFirstBytes` | src/linkstate.rs:454-482 | Held input is always the first MAX_HELD bytes offered since it was last taken or dropped; hearing from the host delivers none of it |
| `LinkState.DeliveredOnlyWhenTaken` | src/linkstate.rs:463-466 | Held input is delivered only by being taken while Confirming, and then all of it; taking or dropping it leaves a live link with nothing held |
| `LinkState.HeldIsNeverForgotten` | src/linkstate.rs:307-321 | With keys held only while the link is not live, a live link has nothing held |
| `LinkState.LinkJudge.constructor` | src/linkstate.rs:259-269 | A live link with the default timings |
| `LinkState.LinkJudge.NoteHeard` | src/linkstate.rs:307-321 | A frame ends any outage, in Confirming where something is held |
| `LinkState.LinkJudge.NoteSent` | src/linkstate.rs:324-326 | Moves the time of the last send and nothing else |
| `LinkState.LinkJudge.Retune` | src/linkstate.rs:274-277 | Moves the two timings and nothing else |
| `LinkState.LinkJudge.IsHeartbeatDue` | src/linkstate.rs:334-337 | Due once neither side has said anything for HEARTBEAT_IDLE |
| `LinkState.LinkJudge.EvaluateNow` | src/linkstate.rs:347-402 | One lap's judgement |
| `LinkState.LinkJudge.NoteAttemptBegun` | src/linkstate.rs:405-412 | Schedules the next try by the attempt number |
| `LinkState.LinkJudge.NoteRebuilt` | src/linkstate.rs:434-441 | Starts the schedule over without leaving the outage |
| `LinkState.LinkJudge.NoteAttemptFailed` | src/linkstate.rs:444-452 | Counts the failure, saturating at 32 bits, and schedules the next try |
| `LinkState.LinkJudge.Hold` | src/linkstate.rs:479-482 | Keeps what there is room for |
| `LinkState.LinkJudge.TakeHeld` | src/linkstate.rs:463-466 | Delivers what is held, once, and goes live |
| `LinkState.LinkJudge.DropHeld` | src/linkstate.rs:469-472 | Discards what is held and goes live |
| `HeldInput.HeldCut` | src/linkstate.rs:180-186 | The cut within HELD_SHOWN bytes: all of a short input, else at the last byte within it that does not continue a character |
| `HeldInput.RenderHeld` | src/linkstate.rs:205-232 | The rendering loop: what is kept, escaped, and how much more there is |
| `HeldInput.DecodeUndoesEncode` | src/linkstate.rs:205-210 | Lossy decoding gives back every text from its UTF-8 (sections 3 and 4 of RFC 3629) |
| `HeldInput.OnlyTextIsComplete` | src/linkstate.rs:205-210 | The decoder takes for a character exactly the bytes some character encodes to: no overlong form, no surrogate, nothing past U+10FFFF |
| `HeldInput.FitIsLongest` | src/linkstate.rs:180-186 | The whole characters that fit a limit fall at most three bytes short of it, and one more does not fit |
| `HeldInput.CutFits` | src/linkstate.rs:180-186 | On well-formed input, at any limit, the cut is exactly after the characters that fit |
| `HeldInput.TextIsShownWhole` | src/linkstate.rs:180-232 | Well-formed input is shown as the longest prefix of whole characters within HELD_SHOWN bytes, at most three short of it, escaped, and the count of the rest |
| `HeldInput.CutIsNearIff` | src/linkstate.rs:180-186 | For any bytes that are cut, the cut is at most three short of HELD_SHOWN if and only if one of the four bytes at the limit continues no character |
| `HeldInput.RenderingHasNoControls` | src/linkstate.rs:205-232 | For any bytes at all the rendering has no C0, DEL or C1 character |
| `HeldInput.PrintableIsItself` | src/linkstate.rs:210-222 | Text without control characters is rendered as itself |
| `HeldInput.ContinuationsShowNothing` | src/linkstate.rs:180-186 | Bytes that are not text can be cut to nothing |
| `Config.PutGet` | src/config.rs:213-443 | A row takes any value of its kind and only that row changes; a value of another kind changes nothing |
| `Config.InEffectRow` | src/config.rs:918-924 | Each row is in effect as it is shown, whatever the other rows are |
| `Config.InEffectNow` | src/config.rs:918-924 | The loop over the table computes the settings in effect |
| `Config.KeepReachable` | src/config.rs:870-887 | The fallback loop: one warning for each layer of auto_open_after let go of |
| `Config.FallbackIsReachable` | src/config.rs:870-887 | For any layers it ends reachable, touches no other key, and changes nothing where nothing is wrong |
| `Config.ResolvedIsReachable` | src/config.rs:751-771 | Whatever the file says, the resolved layers leave the popup reachable and keep every default |
| `Config.AlwaysReachable` | src/config.rs:933-1035 | After every sequence of edits, resets and saves, over any file: the popup is reachable with the settings applied and with the ones shown, no unsaved value is the one it overrides, and every unsaved removal is of the layer in effect |
| `Config.EditShowsSomethingNewIff` | src/config.rs:699-705 | In every reachable state an unsaved edit shows something other than the file says if and only if it is a new value or a removal from a layer that differs from the next one |
| `Config.RemovalCanShowNothingNew` | src/config.rs:1026-1035 | A reset of a row written alike in both sections pends a removal that shows what was shown |
| `Config.OneRowAtATime` | src/config.rs:980-1035 | set and reset change at most their own row of what is applied, a refusal changes nothing at all, and save no row |
| `Config.EditsAreApplied` | src/config.rs:980-1035 | Every unsaved edit is in effect in the settings the session runs with |
| `Config.OnlyThePopupRowsAreRefused` | src/config.rs:980-990 | A change to any row but the popup's own two is never refused |
| `Config.RefusedExactly` | src/config.rs:980-990 | A change is refused if and only if it turns one of the popup's two rows off while the other is off in what is applied or in what is shown |
| `Config.ResetRefusedExactly` | src/config.rs:1026-1035 | A reset is refused if and only if there is nothing to reset, or what it uncovers would be refused so |
| `Config.ResetUndoesSet` | src/config.rs:1026-1035 | In every reachable state, for every row and with any unsaved edit on it, an accepted set and the reset after it are a round trip if and only if: with nothing unsaved, the session ran with what the screen showed, and the value was new or a reset would be refused; with an edit, it was a removal taken back, or this very value and a reset would be refused |
| `Config.HandEditWaits` | src/config.rs:1009-1021 | A run in which it did not: a hand edit found by a save is shown and not applied, and a set and a reset apply it |
| `Config.ConfigState.CommitRow` | src/config.rs:980-990 | Refused where either the applied or the shown settings would be unreachable; else both move |
| `Config.ConfigState.SetValue` | src/config.rs:993-1002 | A value equal to the one overridden is no edit |
| `Config.ConfigState.Reset` | src/config.rs:1026-1035 | Undoes an edit, or removes the value from the layer it came from |
| `Config.ConfigState.SaveEdits` | src/config.rs:1009-1021 | The screen is rebuilt from what was written; what is applied does not move |
| `AttachLoop.PrimariesInOrder` | src/listener.rs:116-198 | Whatever arrives and however exchanges end: one exchange at a time; the primaries begun, the one that pre-empted and those waiting are exactly those that arrived, in order, each once, and so are the standbys begun and waiting; a primary is never pre-empted; after a standby is, the next exchange is a primary's |
| `AttachLoop.IdleServesTheNext` | src/listener.rs:120-131 | An idle loop serves whoever pre-empted, else the first primary, else the first standby, and goes on until a session that is gone is handed a link |
| `AttachLoop.PrimaryIsServedNext` | src/listener.rs:153-162 | A primary that pre-empts a standby's exchange is the very next served, whatever arrives or is renamed before the loop comes round, and the session hears nothing of the exchange dropped |
| `AttachLoop.ExchangeHandsOver` | src/listener.rs:135-198 | An exchange that completes hands over the next generation with what was agreed, and the record says so under the name it had |
| `AttachLoop.RecordIsTheLastAttach` | src/door.rs:282-292 | Over every run generations handed over strictly increase; the record is the last completed exchange's generation, size and detachability under the last name granted, so recording an attach never undoes a rename |
| `AttachLoop.FileLagsOnlyInGeneration` | src/door.rs:282-292 | A registered session's file agrees with the door's record if and only if the last attach's write did not fail or a rename was granted since; where it is behind, its generation is older and its name is not; an unregistered session's file is left alone |
| `AttachLoop.Door.RecordAttachOf` | src/door.rs:282-292 | Takes three fields and leaves the name |
| `AttachLoop.Door.RenameSelf` | src/door.rs:394-410 | Changes the name, here and in the file, or nothing |
| `AttachLoop.Server.constructor` | src/listener.rs:106-118 | An idle loop working from the door's record |
| `AttachLoop.Server.TakeRequest` | src/listener.rs:120-131 | The one that pre-empted, else a primary, else a standby |
| `AttachLoop.Server.Receive` | src/listener.rs:106-128 | A request joins its own door's queue |
| `AttachLoop.Server.ExchangeFails` | src/listener.rs:163-184 | The exchange is over and nothing else moves |
| `AttachLoop.Server.PrimaryArrivesDuringStandby` | src/listener.rs:153-162 | Drops a standby's exchange, and no other, for the first primary waiting |
| `AttachLoop.Server.ExchangeCompletes` | src/listener.rs:163-198 | Records the attach, then hands it over; a session that is gone ends the loop |

## Left out

- QUIC, ssh, the pty, tokio's scheduling, sockets and files: every outcome they can have is an input of a step.
- I/O errors that return from the host's loop, `Presence`, `preview` and the warnings' wording.
- `drain_input` and what is typed into the pty: it depends on how the sync engine joins consumed and appended bytes.
- `ShellKill`'s grace and reap: when a kill is over, and with what code, is an input of a lap.
- `LoopCmd` replies and the bounded wait for them to be written: they move no link.
- TOML parsing and `config/save.rs`: what a file says is taken as arbitrary layers, before and after a save.
- `effective_auto_open`, `effective_rebuild_after` and the parsers' ranges: single comparisons.
- `file_text`, `legible` and the summary shown for a record: a record arrives with its texts made.
- `hh_mm_utc` and the layout of a line: the file is modelled as structured lines.
- `LogRotation.LogFile.Write`: one call is one step; the race between its size check and its append is not modelled.
- `ActivityLog.Activity.RecordEntry`: the repeat counter saturates at 32 bits as in the code; times are integers, with no clock that runs backwards.
- `RebuildRace.Rebuild.BeginAttempt`: generations are unbounded, so u64 wrap-around is not modelled.
- `AttachLoop.Server.ExchangeCompletes`: the attach generation is unbounded, so its saturation is not modelled.
- `needs_connect_timeout`, `ConnectBound`, `classify` and the attempt's deadline: a failure is an outcome, definite or not.
- `pacing_interval`, `FrameSource`, `Link::rebind` and the bounded waits of `send_final` after it has let go of its entry.
- `LinkState.LinkJudge.EvaluateNow`: instants are integers; an `Instant` that cannot be represented is not modelled.
- `standby_backoff`, `failover_due` and the probe: small and pure.
- The search for a standby, its probe and the grace before a failover: in `Handover` a failover is one step that may come whenever the code allows it.
- The sequence numbers of input and acknowledgement: `LinkState` keeps whether they differ, which is all `evaluate` is told.
- `close_the_door`, `accept_doors` and the rest of `src/door.rs`: plumbing around the two writers of the record.
- `src/ladder.rs`, `src/connect.rs`, `src/attach_exchange.rs`, `src/standby.rs`, `src/ui.rs`, `src/serve.rs` and the crates: not part of this model.
