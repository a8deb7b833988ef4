# Parakeet push-to-talk: a verified model

The client of Parakeet lets a user hold a key, speak, and have the transcript, or a language
model's answer to it, typed into the focused window, while a small sheet on the screen shows what
is going on. This project models the parts of that client where state is spread over several
machines, and proves what holds over every run of them; a last part does the same for the metrics
by which speech models are compared.

**Sessions, answers and the sheet.** `ClientSession` holds the push-to-talk state and the answer in
flight, `OverlayRouting` decides which events go to the sheet, `ClientLoop` composes them as the
event loop does: one hotkey event, daemon message, answer progress, injection report or lost
connection at a time. `ClientSteps` says exactly what each of them does and what that makes of runs.
Nothing is assumed of the daemon: any message, about any session, at any time. Progress from
answering tasks is just as arbitrary. `OverlayState` is the renderer's view machine, and
`OverlayView` says field by field what its sheet shows. `Pipeline` joins the client to a renderer
that lags behind by any number of messages, with clock ticks in between, and `ClientLoopLaws`,
`AnswerText`, `OverlayStateLaws`, `InterimConvergence`, `PipelineLaws` and `SessionEnds` prove what
all of them keep together. `OverlayProcess` is the manager that respawns a crashed renderer and
replays what it missed; `OverlayLaunches` says when a process is launched and what it is told,
`OverlayProcessLaws` what survives a crash, and `CrashRecovery` and `SheetRecovery` state that over
runs of the client, the manager and renderers that may crash at any message.

**Hotkeys** (`Hotkey`): one listener per input device, all counting keys in one shared state; a
listener that ends returns its share.

**Answers** (`SseStream`, `LlmAnswer`): cutting the model's byte stream into lines, whatever the
chunks, and removing `<think>` blocks from the result. Server-sent events are defined in sections
9.2.5 and 9.2.6 of the WHATWG HTML Standard; the model follows the client, which ends lines at LF
with at most one CR before it and reads one `data:` line at a time.

**Typing** (`ShortcutChord`, `UinputSender`): emitting a key chord on a device that may fail at any
event, and the life of the virtual keyboard across jobs.

**Metrics** (`TokenAlignment`, `PunctuationMetrics`): edit distance, longest common subsequence,
and the rates built on them.

## How it is written

A component that updates its fields in place is a class here, and each of its methods is proved to
compute a function of the old state, branch by branch. The properties are lemmas about those
functions and about runs of them. Members named `Inv`, `SystemInv`, `Counted`, `HistoryGood` and
the like are the inductive invariants.

Identifiers are numbers that are only compared, with 0 as the nil one; a fresh identifier is not nil
and differs from those this client started before. Clocks are numbers that do not decrease. Whether
a send, a launch, a key event or a queue attempt succeeds is decided by an arbitrary oracle.

## What turned out not to hold

- The sheet can stay for ever. Time alone can take a sheet away exactly when the last thing the
  renderer applied about its session was an end or an injection outcome, and not an interim event
  (`PipelineLaws.SheetLeavesExactlyWhenArmed`; for a closed session,
  `PipelineLaws.ClosedSheetIsArmedExactly`). Runs that do not get there by themselves are, for
  example, these two. A lost connection sends nothing: the sheet it leaves behind stays until the
  daemon, reconnected, ends that session or another session replaces it
  (`PipelineLaws.AbandonedSheetStays`). An error from the daemon resets a query whose end was
  already kept back for its answer: that end is never sent, on a connection that is still up
  (`SessionEnds.ErroredSheetStays`). A kept end can still be sent exactly while its session is
  dictated or answered (`SessionEnds.StoredEndIsStrandedExactly`), and only such an error strands it
  without forgetting it (`SessionEnds.OnlyErrorsStrandEnds`).
- Moving the renderer to another output at the start of an utterance tells the new process the
  current message only. That is what a respawn would have told it if and only if no warning of the
  same session is stored (`OverlayProcessLaws.RetargetForgetsWarning`);
  `OverlayProcessLaws.MoveLosesWarning` is a run of sends in which a warning is lost. The client gets
  there when the daemon acknowledges a session once more after ending it, and warns of it before its
  next interim event (`SheetRecovery.ClientLosesWarning`).
- A failed spawn is not repeated before its backoff is over
  (`OverlayProcessLaws.FailedSpawnBacksOff`, `OverlayProcessLaws.SendThenQuiet`), but a failed move
  sets no backoff: if the old process is then found gone, the same send launches again
  (`OverlayProcessLaws.FailedMoveSetsNoBackoff`).
- Key counts are head counts of the listeners holding the key exactly as long as every action is
  accountable (`Hotkey.CountsStayExactlyWhenAccountable`). A talk key held down while its device
  attaches is not seeded, so its release can end a session that another device is still holding
  (`Hotkey.UnseededTalkReleaseEndsTheSession`).
- Chunk boundaries can matter in one case: a line that is not valid UTF-8 after `[DONE]`
  spoils the answer when one chunk brings both (`SseStream.ChunkingIsInvisible` gives the exact
  condition, `SseStream.JunkAfterDone` such a stream). They never change an answer into a different
  one.

## Model

| member | source | states |
|---|---|---|
| `ClientSession.ClientSessionRuntime.BeginListening` | parakeet-ptt/src/client_session.rs:1092-1096 | only an idle client starts a session; state and intent are set together or not at all |
| `ClientSession.ClientSessionRuntime.StopListening` | parakeet-ptt/src/state.rs:26-34 | only a listening session can be stopped; it then waits for its result under the same identifier and intent |
| `ClientSession.ClientSessionRuntime.Reset` | parakeet-ptt/src/client_session.rs:1107-1110 | no session and no intent is left, whatever there was |
| `ClientSession.ClientLlmQueryRuntime.NextSeq` | parakeet-ptt/src/client_session.rs:1175-1179 | numbers of one session are consecutive from 1; other sessions keep theirs |
| `ClientSession.ClientLlmQueryRuntime.HandleBusyRejection` | parakeet-ptt/src/client_session.rs:407-418 | a busy notice belongs to the nil session and gets the next notice number; the answer in flight is not touched |
| `ClientSession.ClientLlmQueryRuntime.HandleDaemonMessage` | parakeet-ptt/src/client_session.rs:420-492 | a final result starts an answer exactly for the active query session, and the end of a session awaiting its answer is kept back; everything else passes |
| `ClientSession.ClientLlmQueryRuntime.HandleProgress` | parakeet-ptt/src/client_session.rs:509-574 | a delta extends, and a completion ends, the answer in flight only; a stale one changes nothing but its own session's records |
| `ClientSession.ClientLlmQueryRuntime.Finish` | parakeet-ptt/src/client_session.rs:630-663 | the answer in flight leaves flight with the reason deferred for it; all records of the session are gone either way |
| `ClientSession.ClientLlmQueryRuntime.ChooseText` | parakeet-ptt/src/client_session.rs:524-560 | the cleaned answer is typed if there is one and it is not blank, and in every other case the transcript |
| `ClientSession.ClientLlmQueryRuntime.HandleConnectionDrop` | parakeet-ptt/src/client_session.rs:576-580 | nothing about any answer survives a lost connection except the number of busy notices |
| `ClientLoop.ClientEventLoop.OnHotkeyDown` | parakeet-ptt/src/app.rs:469-541 | a press starts a session, shows a busy notice, or is ignored; a failed send of the start loses the connection |
| `ClientLoop.ClientEventLoop.OnHotkeyUp` | parakeet-ptt/src/app.rs:542-580 | a release stops the listening session if there is one; a failed send of the stop loses the connection |
| `ClientLoop.ClientEventLoop.OnDaemonMessage` | parakeet-ptt/src/app.rs:582-642 | the answer runtime sees a daemon message first, and what it keeps never reaches the session's own handling |
| `ClientLoop.ClientEventLoop.HandleServerMessage` | parakeet-ptt/src/client_session.rs:1196-1307 | a final result injects for the active session alone; an error resets the session; the rest only routes, with the active session as the expected one |
| `ClientLoop.ClientEventLoop.OnReport` | parakeet-ptt/src/app.rs:643-649 | a report reaches the sheet as the outcome of its own session and changes nothing else |
| `ClientLoop.ClientEventLoop.OnProgressEvent` | parakeet-ptt/src/app.rs:650-683 | a finished answer ends its session on the sheet before its text is queued |
| `ClientLoop.ClientEventLoop.OnConnectionLost` | parakeet-ptt/src/app.rs:687-709 | session and answers are reset; the router, the jobs and what was sent stay |
| `ClientSteps.StepInjects` | parakeet-ptt/src/client_session.rs:1058-1084 | an event queues one text or none: that of the final result of the dictation going on, or what is typed for the answer it finishes, each with its session, origin, connection and the queue's answer |
| `ClientSteps.DictationIsTypedAsHeard` | parakeet-ptt/src/client_session.rs:1073-1083 | in every run the text typed for a dictation is that of a final result accepted while its session was the one being dictated |
| `ClientSteps.AnswerIsTypedCleaned` | parakeet-ptt/src/client_session.rs:521-571 | in every run the text typed for an answer is what its task delivered, cleaned, or the transcript, and its session was in flight |
| `ClientSteps.TypedIsClean` | parakeet-ptt/src/client_session.rs:533-560 | what is typed for an answer is the transcript, or a part of the answer without a thinking block |
| `ClientSteps.StepMoves` | parakeet-ptt/src/state.rs:15-38 | a session is listened to, waited for or answered after an event exactly if the event brings it there, or it was there and the event does not take it away |
| `ClientSteps.DictatedExactly` | parakeet-ptt/src/client_session.rs:1027-1110 | in every run a session is dictated exactly if a press began it and no lost connection, daemon error or final result of its own came since |
| `ClientSteps.StepCounts` | parakeet-ptt/src/app.rs:469-580 | presses while idle and not busy send a start, releases while listening a stop, and failed sends lose the connection; nothing else touches the wire, the connections or the busy notices |
| `ClientSteps.StepSends` | parakeet-ptt/src/app.rs:464-709 | the messages each event sends to the overlay, one by one: nothing is dropped but what is stale, foreign or kept back, and nothing else is sent |
| `ClientSteps.EverythingSent` | parakeet-ptt/src/app.rs:464-709 | so all messages of every run from the start are known |
| `ClientSteps.StepTracks` | parakeet-ptt/src/overlay_router.rs:225-230 | the session the router tracks after any event |
| `ClientLoopLaws.RunKeepsInv` | parakeet-ptt/src/app.rs:464-709 | the joint invariant of session, answer, jobs and wire holds after every run against any daemon |
| `ClientLoopLaws.OneJobPerSession` | parakeet-ptt/src/client_session.rs:1058-1084 | every run yields at most one injection per session, in the connection that started it; its origin is the raw result exactly for dictations and the answer exactly for queries |
| `ClientLoopLaws.DroppedSessionsInjectNothing` | parakeet-ptt/src/client_session.rs:576-580 | a session started before a lost connection injects nothing after it, however late its result or answer arrives |
| `ClientLoopLaws.WireAndStateDiscipline` | parakeet-ptt/src/state.rs:15-38 | attempted messages are (Start Stop?)* over distinct identifiers; idle exactly without intent; busy exactly with an answer in flight, and then idle |
| `ClientLoopLaws.AnswerInFlightIsUndisturbed` | parakeet-ptt/src/client_session.rs:460-480 | while an answer is in flight nothing is sent to the daemon and no other answer takes its place; it leaves flight exactly by finishing or a lost connection |
| `ClientLoopLaws.EndIsDeferred` | parakeet-ptt/src/client_session.rs:582-600 | the daemon's end of a session that awaits its answer is stored with its reason, and nothing is sent to the sheet |
| `ClientLoopLaws.DeferredEndIsKept` | parakeet-ptt/src/client_session.rs:582-600 | a stored end survives every run without a lost connection, a second end or the finish of that session |
| `ClientLoopLaws.FinishedAnswerSendsDeferredEnd` | parakeet-ptt/src/client_session.rs:630-663 | the finish sends exactly the stored end, with its reason, and forgets it |
| `SessionEnds.StepEnds` | parakeet-ptt/src/app.rs:582-683 | an event sends an end of a session exactly when it finishes its answer, with the reason kept for it, or is the daemon's own end that is neither kept back nor about another session than expected |
| `SessionEnds.RunEnds` | parakeet-ptt/src/app.rs:464-709 | so all ends of a session that a run sends, and their reasons, are known |
| `SessionEnds.GoneIsNeverAnswered` | parakeet-ptt/src/client_session.rs:1196-1307 | a session no longer dictated nor answered, for whatever cause, is never answered again in any run, and no end of it goes out but the daemon's |
| `SessionEnds.EndIsSentExactlyWhenAnswered` | parakeet-ptt/src/client_session.rs:582-663 | without another word from the daemon exactly one end goes out if the answer finishes along the run, and none if it does not |
| `SessionEnds.EveryStoredEnd` | parakeet-ptt/src/client_session.rs:582-663 | in every run a kept end is sent once, with its own reason, if its session's answer finishes, and never otherwise |
| `SessionEnds.StoredEndIsStrandedExactly` | parakeet-ptt/src/client_session.rs:1232-1249 | a kept end can still be sent in some continuation if and only if its session is dictated or answered now |
| `SessionEnds.OnlyErrorsStrandEnds` | parakeet-ptt/src/client_session.rs:1232-1249 | the one step that leaves an end kept but never sent is a daemon error while its session is dictated |
| `SessionEnds.ErroredSheetStays` | parakeet-ptt/src/client_session.rs:1232-1249 | a concrete run on one connection: the daemon ended the session, then reported an error, and the sheet outlasts any number of ticks |
| `OverlayRouting.OverlayRouter.SessionStarted` | parakeet-ptt/src/overlay_router.rs:225-230 | a new session clears all recorded numbers; the same one keeps them |
| `OverlayRouting.OverlayRouter.TryAcceptSeq` | parakeet-ptt/src/overlay_router.rs:516-543 | a number passes exactly if its session is new or it exceeds the producer's last one |
| `OverlayRouting.OverlayRouter.Interim` | parakeet-ptt/src/overlay_router.rs:409-470 | an event of another than the expected session changes nothing; an accepted one is sent right after the output hint, a stale one not at all |
| `OverlayRouting.OverlayRouter.DaemonInterim` | parakeet-ptt/src/overlay_router.rs:263-334 | without a running session no daemon event reaches the sheet |
| `OverlayRouting.OverlayRouter.Level` | parakeet-ptt/src/overlay_router.rs:373-387 | levels of another than the expected session are dropped; no record changes |
| `OverlayRouting.OverlayRouter.Ended` | parakeet-ptt/src/overlay_router.rs:389-407 | an end clears the router's records exactly if it is the tracked session's |
| `OverlayRouting.OverlayRouter.InjectionDone` | parakeet-ptt/src/overlay_router.rs:472-483 | outcomes always reach the sheet |
| `OverlayRouting.OverlayRouter.Warning` | parakeet-ptt/src/overlay_router.rs:485-499 | a warning is sent only for the tracked session, always with a remaining time |
| `OverlayState.OverlayStateMachine.ApplyEvent` | parakeet-ptt/src/overlay_state.rs:197-341 | the whole new state and the outcome for every message, including stale, mismatched and nil-session ones |
| `OverlayState.OverlayStateMachine.Tick` | parakeet-ptt/src/overlay_state.rs:345-366 | an expired notice is cleared and an expired sheet hidden with everything recorded; the result tells whether to repaint |
| `OverlayState.OverlayStateMachine.OpenView` | parakeet-ptt/src/overlay_state.rs:374-394 | the visible session keeps its view; any other gets a new one without deadlines |
| `OverlayState.OverlayStateMachine.AcceptSeq` | parakeet-ptt/src/overlay_state.rs:396-415 | a number is newer exactly if its session is new or it exceeds the producer's last one |
| `OverlayStateLaws.ReachableIsWellFormed` | parakeet-ptt/src/overlay_state.rs:169-180 | every reachable renderer tracks exactly the visible session, never the nil one, and has a hide deadline only while visible |
| `OverlayStateLaws.TimerNeverRunsBackwards` | parakeet-ptt/src/overlay_state.rs:115-120 | over any messages and ticks in time order the timer of a shown session never decreases, and is constant once the session ended |
| `OverlayStateLaws.InterimKeepsQuestion` | parakeet-ptt/src/overlay_state.rs:130-139 | only an answer event sets the question, to the trimmed transcript; in answer mode the transcript no longer changes |
| `OverlayStateLaws.QuestionStays` | parakeet-ptt/src/overlay_state.rs:130-139 | once set, the question stays as long as the session is shown |
| `OverlayStateLaws.LeavingIsFinal` | parakeet-ptt/src/overlay_state.rs:272-366 | without interim events of its own a session with a deadline keeps one through any inputs, at most one linger time after the last message that ended it |
| `OverlayStateLaws.TickPastDeadlineHides` | parakeet-ptt/src/overlay_state.rs:345-366 | the first tick past the bound takes the session off the screen |
| `OverlayStateLaws.DeadlineIsArmedExactly` | parakeet-ptt/src/overlay_state.rs:239-341 | a session that stays shown has a deadline if and only if the last applied message about it was an end or an outcome, or it had one before and nothing applied since |
| `OverlayStateLaws.TimeHidesExactlyPastDeadline` | parakeet-ptt/src/overlay_state.rs:345-366 | ticks alone hide a shown session if and only if it has a deadline and one of them reaches it |
| `OverlayStateLaws.ArrivalsEndAtNewest` | parakeet-ptt/src/overlay_state.rs:242-273 | from a screen that shows a text, further texts in any order end at the one with the largest number, the shown one included |
| `OverlayStateLaws.ArrivalOrderDoesNotMatter` | parakeet-ptt/src/overlay_state.rs:242-273 | texts of a producer without a recorded number, in any order and repeated, end at the one with the largest number |
| `OverlayStateLaws.AcceptedNumbersIncrease` | parakeet-ptt/src/overlay_state.rs:396-415 | for the tracked session an event is applied exactly if its number is greater than the last; otherwise nothing changes |
| `OverlayView.StepTells` | parakeet-ptt/src/overlay_state.rs:197-366 | a shown session goes on being shown exactly if no other session takes over and no deadline passes; and then each field of its sheet, both deadlines and the numbers are decided field by field by the message about it, if there is one and it is not stale |
| `OverlayView.StepShows` | parakeet-ptt/src/overlay_state.rs:374-394 | a session appears exactly with an interim event of its own or its end on an empty screen, as a blank view started then that is told that message |
| `OverlayView.ScreenIsTold` | parakeet-ptt/src/overlay_state.rs:197-366 | over any inputs through which a session stays, the whole screen is what the messages about it tell |
| `OverlayView.OutcomeStays` | parakeet-ptt/src/overlay_state.rs:325-341 | a shown outcome is replaced by another outcome or an answer event of the session and by nothing else |
| `OverlayView.ReasonIsLastTold` | parakeet-ptt/src/overlay_state.rs:272-295 | the reason on the sheet is that of the last end told about the session |
| `OverlayView.TimerCountsFromFirst` | parakeet-ptt/src/overlay_state.rs:115-120 | until something ends it the timer shows the time since the session's first message |
| `OverlayView.TimerStops` | parakeet-ptt/src/overlay_state.rs:115-120 | what ends it first stops it there, at any later time |
| `OverlayView.NoticeComesAndGoes` | parakeet-ptt/src/overlay_state.rs:345-372 | a busy notice is shown on the sheet and cleared once the auto-hide time after its end is over, not before, and changes nothing else |
| `InterimConvergence.RouterLetsNewerThrough` | parakeet-ptt/src/overlay_router.rs:516-543 | of any arrivals the router sends exactly those newer than all before, unchanged and in order |
| `InterimConvergence.PassedIncreases` | parakeet-ptt/src/overlay_router.rs:516-543 | the numbers it sends strictly increase |
| `InterimConvergence.AnyOrderEndsAtNewest` | parakeet-ptt/src/overlay_router.rs:440-470 | router and renderer together turn any arrival order, with duplicates, of a producer the renderer has not heard for the session, acknowledged or not, into the text of the largest number |
| `InterimConvergence.RunningSessionEndsAtNewest` | parakeet-ptt/src/overlay_router.rs:516-543 | for a running session, whose last event was a text or a state, the same holds with what is shown counted among the arrivals |
| `Pipeline.StepAdds` | parakeet-ptt/src/app.rs:466-683 | what one event may send: daemon interim events of the active session only, busy notices of the nil session, answer events only when the answer starts or grows, no end of an answer in flight but its own finish |
| `Pipeline.NewerAnswerGetsThrough` | parakeet-ptt/src/overlay_router.rs:516-543 | a newer answer event is sent last, after the hint at most, with no other session expected |
| `Pipeline.StepKeepsRouterReady` | parakeet-ptt/src/overlay_router.rs:516-543 | the router's record never gets ahead of an answer that is still to come, whatever is routed in between |
| `Pipeline.AnswerEventIsSent` | parakeet-ptt/src/client_session.rs:602-628 | every accepted delta puts exactly one event in the pipe, numbered next and carrying the whole text so far |
| `Pipeline.StepCloses` | parakeet-ptt/src/client_session.rs:1058-1084 | a session is closed by its accepted dictation result, which sends nothing, or by its finished answer, which sends its end |
| `Pipeline.DeliveryProgresses` | parakeet-ptt/src/overlay_state.rs:197-295 | a renderer on track with an answer drops none of its events and is thrown off by no other message allowed in the pipe |
| `Pipeline.RunKeepsSystemInv` | parakeet-ptt/src/app.rs:464-709 | the invariant joining client, pipe and renderer holds after every interleaving of events, deliveries and ticks |
| `PipelineLaws.AnswerIsShownInFull` | parakeet-ptt/src/client_session.rs:607-628 | in every run, from accepting a query's result until its finish or a lost connection, a renderer that has caught up shows that session answering with the concatenation of all its deltas |
| `PipelineLaws.CaughtUpShowsTheAnswer` | parakeet-ptt/src/overlay_state.rs:262-273 | in every good state with an answer in flight, a renderer that has caught up shows it, with no hide deadline |
| `AnswerText.TextIsWhatWasHeard` | parakeet-ptt/src/client_session.rs:607-628 | the accumulated text grows by exactly the deltas of that session, whatever stale or foreign events interleave |
| `PipelineLaws.FinishInjectsTheText` | parakeet-ptt/src/client_session.rs:521-571 | a finished answer queues one text: its cleaned form, or the transcript if that is blank or the answer failed |
| `PipelineLaws.InjectsWhatTheOverlayAccumulated` | parakeet-ptt/src/client_session.rs:521-571 | with overlay streaming, for any chunks of the response, the one text queued is the cleaned form of what the overlay accumulated, or the transcript if that is blank; so it is the transcript, or a part of what was accumulated without a thinking block |
| `PipelineLaws.ClosedSessionIsSilent` | parakeet-ptt/src/overlay_router.rs:271-334 | after a session is closed no interim event of it reaches the renderer again, in any run |
| `PipelineLaws.ClosedSheetLeaves` | parakeet-ptt/src/overlay_state.rs:272-366 | so a deadline set for a closed session is never cancelled, through any run, and is bounded by the last message that ended it |
| `PipelineLaws.SheetLeavesExactlyWhenArmed` | parakeet-ptt/src/overlay_state.rs:239-366 | over every run, time alone can take a sheet off the screen if and only if the last thing applied about its session was an end or an outcome |
| `PipelineLaws.ClosedSheetIsArmedExactly` | parakeet-ptt/src/overlay_state.rs:272-341 | for a closed session that is exactly if it had a deadline already or an end or an outcome has been delivered since |
| `PipelineLaws.EndedSheetLeaves` | parakeet-ptt/src/overlay_state.rs:272-366 | in every run a closed session of which the renderer has consumed an end or an injection outcome is off the screen or has a deadline, past which a tick hides it |
| `PipelineLaws.FinishedAnswerLeaves` | parakeet-ptt/src/app.rs:660-673 | a finished answer always gets there: its end is the first thing sent once it is closed |
| `PipelineLaws.ReportIsShown` | parakeet-ptt/src/client_session.rs:798-913 | end to end: a report puts its own outcome, and the copy mode, on the sheet of its session if that is shown when it gets there, whatever happened meanwhile |
| `PipelineLaws.OutcomeStaysShown` | parakeet-ptt/src/overlay_state.rs:325-341 | and in every run it stays there as long as the sheet does and no other report of the session is delivered |
| `PipelineLaws.AbandonedSheetStays` | parakeet-ptt/src/app.rs:687-709 | a concrete run: after a lost connection a sheet without a deadline outlasts any number of ticks |
| `OverlayProcess.OverlayProcessManager.SendMessage` | parakeet-ptt/src/overlay_process.rs:278-338 | the whole new manager state for any message, clock and launch outcome: what is stored, who is running, what it was told |
| `OverlayProcess.OverlayProcessManager.Hand` | parakeet-ptt/src/overlay_process.rs:302-338 | the message goes to the running process, or to a new one with its batch if there is none or it is found gone |
| `OverlayProcess.OverlayProcessManager.RememberReplayState` | parakeet-ptt/src/overlay_process.rs:348-380 | hints and levels are never stored; a warning only for the stored session; an outcome clears its own session only |
| `OverlayProcess.OverlayProcessManager.SyncSinkAfterRespawn` | parakeet-ptt/src/overlay_process.rs:382-407 | the new process takes the whole batch in order, or is given up with its output |
| `OverlayProcess.OverlayProcessManager.TrySpawnSink` | parakeet-ptt/src/overlay_process.rs:487-548 | no launch while one runs, during backoff, or while an output is awaited within the watchdog time |
| `OverlayProcess.OverlayProcessManager.MaybeRetargetForNextUtterance` | parakeet-ptt/src/overlay_process.rs:550-585 | a failed move keeps the running process and its output |
| `OverlayProcessLaws.SendKeepsInv` | parakeet-ptt/src/overlay_process.rs:348-380 | a stored warning always belongs to the stored message's session, backoff means no process, and every process's screen is well formed |
| `OverlayProcessLaws.ReplayIsOneSession` | parakeet-ptt/src/overlay_process.rs:413-427 | a replay has at most two messages, all of one session, the second an aged warning |
| `OverlayProcessLaws.SpawnedProcessIsTold` | parakeet-ptt/src/overlay_process.rs:382-407 | after any send that leaves a process, its whole input is known: the old input and the message, the message alone after a move, or exactly the batch |
| `OverlayProcessLaws.FreshRendererAppliesReplay` | parakeet-ptt/src/overlay_process.rs:472-485 | a fresh renderer drops no part of a replay |
| `OverlayProcessLaws.RetargetForgetsWarning` | parakeet-ptt/src/overlay_process.rs:278-300 | a send that moves the renderer leaves a process told the message alone, which is what a respawn would have told it if and only if no warning of that session is stored |
| `OverlayProcessLaws.MoveLosesWarning` | parakeet-ptt/src/overlay_process.rs:550-585 | a concrete run of sends after which the new process shows the session without the warning that a respawn would replay |
| `OverlayProcessLaws.FailedLaunchBacksOff` | parakeet-ptt/src/overlay_process.rs:538-546 | an attempt that leaves no process, which is one whose launch failed, sets the full backoff |
| `OverlayProcessLaws.FailedSpawnBacksOff` | parakeet-ptt/src/overlay_process.rs:278-338 | a send whose spawn failed, for whatever reason it spawned, leaves no process and sets the full backoff |
| `OverlayProcessLaws.SendThenQuiet` | parakeet-ptt/src/overlay_process.rs:487-497 | after a send that leaves a backoff, no sequence of sends and ticks before its end launches anything |
| `OverlayProcessLaws.FailedMoveSetsNoBackoff` | parakeet-ptt/src/overlay_process.rs:577-584 | a failed move backs nothing off: the same send launches once more exactly if the old process does not take the message |
| `OverlayProcessLaws.NoLaunchDuringBackoff` | parakeet-ptt/src/overlay_process.rs:487-497 | no sequence of sends launches anything before the backoff ends |
| `OverlayLaunches.LaunchesExactly` | parakeet-ptt/src/overlay_process.rs:487-548 | a launch is attempted exactly if the overlay is enabled, no process or backoff runs, and an output is known, not needed or waited for long enough; it is for the hinted output before the focused one |
| `OverlayLaunches.WaitIsKept` | parakeet-ptt/src/overlay_process.rs:499-530 | the wait for an output goes on from when it began, and is over once an output is known or the watchdog has fired |
| `OverlayLaunches.MovesExactly` | parakeet-ptt/src/overlay_process.rs:278-300 | a running process is replaced before a message exactly if that starts an utterance, another output than its own is hinted at, and the launch works |
| `OverlayLaunches.UtteranceGoesOn` | parakeet-ptt/src/overlay_process.rs:278-300 | an utterance goes on from an interim event to the next end, whatever crashes |
| `OverlayLaunches.KeptIsLast` | parakeet-ptt/src/overlay_process.rs:348-380 | over all sends, what a respawn replays first is exactly the last interim event or end, unless an outcome of its session came since |
| `OverlayLaunches.BatchTellsMessage` | parakeet-ptt/src/overlay_process.rs:382-407 | a process spawned on the way of a message is told that message, in its place; only a warning of another session than the stored one is not |
| `OverlayLaunches.ClockKeepsGoing` | parakeet-ptt/src/overlay_process.rs:350-363 | the session's clock runs from its first interim event through anything but another session |
| `OverlayLaunches.CapIsCountedFromStart` | parakeet-ptt/src/overlay_process.rs:429-460 | a warning of the cap alone is replayed with what is left of the cap since that event, never below zero |
| `OverlayProcessLaws.FirstInterimIsLive` | parakeet-ptt/src/overlay_process.rs:348-363 | a new session is running, in the manager and in its renderer, from its first interim event |
| `OverlayProcessLaws.WarningStartsCountdown` | parakeet-ptt/src/overlay_process.rs:367-372 | a warning starts the countdown in the manager, and in the renderer if there is one after the send |
| `OverlayProcessLaws.CountdownSurvivesRespawns` | parakeet-ptt/src/overlay_process.rs:413-460 | the countdown goes on through any operations in time order during which the session runs, with any number of crashes, failed launches and respawns |
| `OverlayProcessLaws.CountdownReadsTrue` | parakeet-ptt/src/overlay_state.rs:123-128 | at any later time the current renderer shows the remaining time of the warning less the time since it came, never below zero |
| `OverlayProcessLaws.AnswerSurvivesRespawn` | parakeet-ptt/src/overlay_process.rs:382-407 | after sending a newer answer text, whatever process is alive shows that whole text, however often it was respawned |
| `OverlayProcessLaws.UncrashedProcessIsThePipe` | parakeet-ptt/src/overlay_process.rs:587-597 | a process that lasts receives every message once and in order, and its screen is what the view machine makes of those messages and the ticks, as `Pipeline` assumes |
| `CrashRecovery.RunKeepsSystemInv` | parakeet-ptt/src/overlay_router.rs:110-123 | in every run of client, manager and crashing renderers, neither the stored message nor the living process is ahead of an answer still to come |
| `CrashRecovery.AnswerSurvivesCrashes` | parakeet-ptt/src/client_session.rs:607-628 | in every run from the start, each delta of an answer in flight leaves the process then alive, however many crashed before, showing that session answering with all deltas so far |
| `CrashRecovery.DictationStaysLive` | parakeet-ptt/src/overlay_process.rs:348-363 | from its first interim event, and while it is dictated without a word about its end, a session is what a respawn replays and what the living process shows |
| `CrashRecovery.CountdownSurvivesCrashes` | parakeet-ptt/src/overlay_process.rs:413-460 | over every run from a state in which the session is so running, from the daemon's warning on and while it is dictated, the process alive at time t shows the remaining time less the time since the warning, never below zero |
| `SheetRecovery.EndMakesLeave` | parakeet-ptt/src/overlay_process.rs:348-407 | sending an end or an outcome of a session leaves nothing of it stored but its end, and no process, old or new, that shows it without a deadline |
| `SheetRecovery.EndedSheetIsNotRevived` | parakeet-ptt/src/overlay_process.rs:348-407 | in every run from the start, once an event has sent an end or an outcome of a closed session no crash or respawn revives its sheet: a process that shows it has a deadline, and a tick past it hides it |
| `SheetRecovery.FinishedAnswerIsEnded` | parakeet-ptt/src/app.rs:660-673 | the event that finishes an answer closes its session and sends its end, and nothing else |
| `SheetRecovery.ClientLosesWarning` | parakeet-ptt/src/client_session.rs:1196-1307 | a concrete run of the client, the manager and its processes that ends like `MoveLosesWarning` |
| `Hotkey.HotkeySharedState.NotePreModifierDown` | parakeet-ptt/src/hotkey.rs:338-340 | one more share of that key, all others as before |
| `Hotkey.HotkeySharedState.NotePreModifierUp` | parakeet-ptt/src/hotkey.rs:342-351 | one share less; a key without shares is not in the map |
| `Hotkey.HotkeySharedState.NoteTalkDown` | parakeet-ptt/src/hotkey.rs:353-357 | tells whether this is the first talk key down |
| `Hotkey.HotkeySharedState.NoteTalkUp` | parakeet-ptt/src/hotkey.rs:359-365 | tells whether this was the last talk key down; never goes below zero |
| `Hotkey.HotkeySharedState.DeriveHotkeyEvent` | parakeet-ptt/src/hotkey.rs:911-951 | the new counts and the event for any key and value; repeats change nothing |
| `Hotkey.HotkeySharedState.SeedListener` | parakeet-ptt/src/hotkey.rs:308-322 | exactly the configured modifiers that are held are counted once each, even if configured twice; the talk key never |
| `Hotkey.HotkeySharedState.ReleaseListenerState` | parakeet-ptt/src/hotkey.rs:381-403 | one share of each key of the listener is returned, in whatever order they come |
| `Hotkey.HotkeyListeners.OnAttach` | parakeet-ptt/src/hotkey.rs:766-802 | a device with readable state is seeded; one without marks the next press as not reconstructed |
| `Hotkey.HotkeyListeners.OnKeyEvent` | parakeet-ptt/src/hotkey.rs:833-850 | the device's own record and the shared counts change by the same event |
| `Hotkey.HotkeyListeners.OnExit` | parakeet-ptt/src/hotkey.rs:442-476 | the listener is gone and the release event, if any, is told |
| `Hotkey.CountsStayExactlyWhenAccountable` | parakeet-ptt/src/hotkey.rs:277-403 | counts remain head counts of the live listeners holding each key if and only if the key event alternates for its device, or the exit returns what was held |
| `Hotkey.RunKeepsCounted` | parakeet-ptt/src/hotkey.rs:277-403 | so they are head counts, with only positive entries, after every accountable run |
| `Hotkey.AllSharesComeBack` | parakeet-ptt/src/hotkey.rs:381-403 | when all listeners have exited every count is zero |
| `Hotkey.IntentIsWhatIsHeld` | parakeet-ptt/src/hotkey.rs:926-938 | a press asks for a query if and only if some live listener holds a pre-modifier |
| `Hotkey.RunMirrors` | parakeet-ptt/src/hotkey.rs:277-322 | in every run the listeners know exactly the pre-modifiers their devices hold, as reported at attach and moved since, and the talk keys pressed while they listened |
| `Hotkey.EventsAreCalledFor` | parakeet-ptt/src/hotkey.rs:353-476 | in every accountable run each action emits exactly the event its devices call for: a press when the first talk key goes down, with the query intent if and only if some device holds a pre-modifier, and a release when the last one is up or gone |
| `Hotkey.DegradedIsToldOnce` | parakeet-ptt/src/hotkey.rs:367-375 | a press tells that state was not reconstructed exactly if a device attached without a report since the last one told |
| `Hotkey.EventsAlternate` | parakeet-ptt/src/hotkey.rs:353-403 | for arbitrary keys, seeds and exits the events derived under the lock are Down, Up, Down, ..., ending in Down exactly while a talk key is counted |
| `Hotkey.UnseededTalkReleaseEndsTheSession` | parakeet-ptt/src/hotkey.rs:766-802 | a concrete run: releasing a talk key that was held at attach ends the session another device still holds |
| `SseStream.LineBuffer.DrainComplete` | parakeet-ptt/src/llm.rs:208-220 | what is drained is the decoding of all complete lines, and what stays is the bytes after the last LF |
| `SseStream.LineBuffer.DrainLines` | parakeet-ptt/src/llm.rs:208-229 | at the end of the stream the unfinished line is decoded too, without trailing CRs |
| `SseStream.ProcessLines` | parakeet-ptt/src/llm.rs:277-302 | lines are obeyed in order up to the first that finishes or fails |
| `SseStream.FetchStreamedAnswer` | parakeet-ptt/src/llm.rs:272-321 | the answer and the progress sent are those of the reading function, for any chunks |
| `SseStream.CrEndsLine` | parakeet-ptt/src/llm.rs:212-217 | one CR before the LF belongs to the line's end and not to its text |
| `SseStream.UnfinishedLineIsRead` | parakeet-ptt/src/llm.rs:222-227 | the last line of a stream that does not end in LF is read too, without the CRs it ends in |
| `SseStream.InterpretExactly` | parakeet-ptt/src/llm.rs:277-302 | a line is passed over, finishes, fails or yields its content in exactly the cases the protocol names, and the content is the payload's own |
| `SseStream.StreamIsReadBack` | parakeet-ptt/src/llm.rs:208-321 | round trip: a stream of content lines, comments and a last `[DONE]`, with LF or CRLF and with or without a final LF, is read to exactly its contents however it is cut into chunks, and exactly they are sent as progress |
| `SseStream.ChunksReadAsStream` | parakeet-ptt/src/llm.rs:304-321 | reading in chunks equals splitting the whole stream on LF if its lines decode; otherwise it gives that or fails |
| `SseStream.ChunkingIsInvisible` | parakeet-ptt/src/llm.rs:208-321 | every chunking gives the answer of the whole stream if and only if all complete lines after the one that finishes the answer, if there is one, are valid UTF-8 |
| `SseStream.ClientChunkingIsInvisible` | parakeet-ptt/src/llm.rs:277-302 | the same for the client's own reading of a line, where the line that finishes says `[DONE]` |
| `SseStream.JunkAfterDone` | parakeet-ptt/src/llm.rs:304-312 | a stream whose answer is lost when it comes as one chunk and complete when it comes as two |
| `SseStream.DeltasAddUpToAnswer` | parakeet-ptt/src/llm.rs:290-299 | with overlay streaming the deltas sent concatenate to the answer returned |
| `LlmAnswer.StripBlocks` | parakeet-ptt/src/llm.rs:193-202 | the rewriting loop ends and computes the recursive removal of blocks |
| `LlmAnswer.SanitizeModelAnswer` | parakeet-ptt/src/llm.rs:193-206 | the cleaned answer, for every input |
| `LlmAnswer.SanitizedAnswer` | parakeet-ptt/src/llm.rs:193-206 | the result holds no opening tag even where a removal joined text into one, is a subsequence of the input, and is a fixed point |
| `LlmAnswer.UntaggedAnswerIsOnlyTrimmed` | parakeet-ptt/src/llm.rs:204-205 | without a tag nothing but surrounding white space is lost |
| `LlmAnswer.BlockVanishes` | parakeet-ptt/src/llm.rs:195-202 | the first block, up to the first closing tag after it, vanishes and only it |
| `LlmAnswer.UnclosedBlockTakesTheRest` | parakeet-ptt/src/llm.rs:196-199 | an unclosed block takes everything after it |
| `Text.TrimIsPiece` | parakeet-ptt/src/llm.rs:204-205 | trimming removes white space at both ends, all of it, and nothing else |
| `Text.SpacesAreListed` | parakeet-ptt/src/llm.rs:204-205 | white space is the 25 characters with the Unicode White_Space property |
| `ShortcutChord.SendShortcut` | parakeet-ptt/src/injector.rs:526-579 | for any modifiers and failures the attempts are the whole plan, or the plan to its first failure and then one release for each key still down; the error returned is that first failure |
| `ShortcutChord.CleanUp` | parakeet-ptt/src/injector.rs:559-599 | cleanup attempts every release, the key first and the modifiers in reverse, whether or not they succeed |
| `ShortcutChord.EveryPressIsReleased` | parakeet-ptt/src/injector.rs:526-599 | every press the device took has a later release attempt, other than the one that failed |
| `ShortcutChord.ReleasedInReverse` | parakeet-ptt/src/injector.rs:526-579 | releases come in the reverse order of the presses, on success and after any failure |
| `ShortcutChord.AttemptsInOrder` | parakeet-ptt/src/injector.rs:526-553 | up to the first failure the attempts are the modifiers in order, the key down and up, and the modifiers in reverse |
| `ShortcutChord.OnlyPressedIsReleased` | parakeet-ptt/src/injector.rs:559-577 | after a failure each release undoes one press that was not undone yet; no other key is released |
| `ShortcutChord.NoKeyIsLeftDown` | parakeet-ptt/src/injector.rs:526-599 | if the cleanup releases succeed no key is down at the end |
| `ShortcutChord.SuccessIsNested` | parakeet-ptt/src/injector.rs:526-553 | a chord that succeeds is a balanced, nested sequence of presses and releases |
| `UinputSender.InProcessInjectorRunner.CreateSender` | parakeet-ptt/src/injector_runtime.rs:500-538 | a created device gets the next generation and is fresh; a failure fixes when the next attempt may be |
| `UinputSender.InProcessInjectorRunner.PreparePasteKeySender` | parakeet-ptt/src/injector_runtime.rs:445-542 | the loop ends when sleeping moves the clock on, and hands out the healthy device after its warm-up, nothing during backoff |
| `UinputSender.InProcessInjectorRunner.CommitSuccessfulPasteKeySender` | parakeet-ptt/src/injector_runtime.rs:544-563 | only a use of the current device at its current count is counted |
| `UinputSender.InProcessInjectorRunner.RunInjectionJob` | parakeet-ptt/src/injector_runtime.rs:566-614 | the whole new state for each way a job can end |
| `UinputSender.PrepareKeepsGood` | parakeet-ptt/src/injector_runtime.rs:445-542 | a healthy device is kept as it is; otherwise a handed out one is of a new generation, and a fresh one is past its warm-up |
| `UinputSender.CreationIsStamped` | parakeet-ptt/src/injector_runtime.rs:501-538 | a device is stamped with the clock after its creation, and a failure sets the whole backoff from there |
| `UinputSender.FreshWaitsOutWarmup` | parakeet-ptt/src/injector_runtime.rs:469-475 | a device made for a job is handed out a whole warm-up after the job began, at the earliest |
| `UinputSender.WaitsOnlyForWarmup` | parakeet-ptt/src/injector_runtime.rs:469-489 | the wait is no longer than the warm-up asks for, and a device in use is not waited for |
| `UinputSender.AttemptsExactly` | parakeet-ptt/src/injector_runtime.rs:445-542 | a job attempts to create a device exactly if there is none and no backoff runs, once, and is handed a device exactly if there is one or the attempt succeeds |
| `UinputSender.JobLeaves` | parakeet-ptt/src/injector_runtime.rs:566-614 | a success counts one use, a backend failure in paste mode drops the device, and any other end leaves it as it is |
| `UinputSender.JobKeepsHistoryGood` | parakeet-ptt/src/injector_runtime.rs:566-614 | each job keeps the history invariant, however it ends |
| `UinputSender.EveryHistoryIsGood` | parakeet-ptt/src/injector_runtime.rs:445-614 | over all job histories: generations increase; use counts equal the successes on that device; fresh exactly if unused; recovered exactly after a failed attempt; no device after its backend failure; no fresh one before a warm-up counted from its creation on record; no attempt within the backoff after a failed one |
| `UinputSender.CommitTwiceCountsOnce` | parakeet-ptt/src/injector_runtime.rs:544-563 | committing the same use again changes nothing |
| `TokenAlignment.LevenshteinDistance` | parakeet-stt-daemon/check_model_lib/metrics.py:70-86 | the table filled row by row ends with the distance of the whole lists |
| `TokenAlignment.CellIsPrefixDistance` | parakeet-stt-daemon/check_model_lib/metrics.py:78-85 | each table cell is the distance of the two prefixes it stands for |
| `TokenAlignment.EditDistanceIsDistance` | parakeet-stt-daemon/check_model_lib/metrics.py:70-86 | that distance is the least cost over all scripts of insertions, deletions and substitutions: one achieves it, none is cheaper |
| `TokenAlignment.EditDistanceIsMetric` | parakeet-stt-daemon/check_model_lib/metrics.py:70-86 | zero exactly between equal lists, symmetric, and the triangle inequality |
| `TokenAlignment.EditDistanceBounds` | parakeet-stt-daemon/check_model_lib/metrics.py:70-86 | between the difference of the lengths and the larger length |
| `TokenAlignment.NormalizedWer` | parakeet-stt-daemon/check_model_lib/metrics.py:89-94 | zero exactly for a perfect hypothesis, never negative, at most one unless the hypothesis is longer |
| `TokenAlignment.LcsLength` | parakeet-stt-daemon/check_model_lib/metrics.py:220-234 | the table ends with the greedy recurrence on the whole lists |
| `TokenAlignment.LcsIsLongestCommon` | parakeet-stt-daemon/check_model_lib/metrics.py:220-234 | that is the greatest length over all common subsequences, the same both ways round, and no longer than either list |
| `PunctuationMetrics.ComputePunctuationMetrics` | parakeet-stt-daemon/check_model_lib/metrics.py:237-275 | matches exceed neither count and all counts are equal exactly if every row has equal punctuation; terminal counts are numbers of rows; all rates lie in [0,1]; F1 lies between precision and recall and is twice the matches over all marks |
| `PunctuationMetrics.F1IsSharedFraction` | parakeet-stt-daemon/check_model_lib/metrics.py:260-264 | F1 is twice the matches over the marks of both sides, and 1 when there are none |
| `PunctuationMetrics.TerminalsAreCounted` | parakeet-stt-daemon/check_model_lib/metrics.py:253-258 | the terminal counts are the numbers of rows with a final mark and of those that match it |
| `PunctuationMetrics.TokensAreCounted` | parakeet-stt-daemon/check_model_lib/metrics.py:247-250 | the mark counts are those of all rows put together |
| `PunctuationMetrics.MatchesAreBounded` | parakeet-stt-daemon/check_model_lib/metrics.py:244-259 | over any rows the matches exceed neither total |
| `PunctuationMetrics.PerfectIffAllMatched` | parakeet-stt-daemon/check_model_lib/metrics.py:244-262 | all totals are equal exactly if every row has equal punctuation |
| `PunctuationMetrics.F1Between` | parakeet-stt-daemon/check_model_lib/metrics.py:262-264 | F1 lies between precision and recall |

## Left out

- That the answer is shown at every moment is stated for one renderer process that neither crashes nor moves to another output. Through crashes it is stated after each delta: a process spawned by a busy notice is told that notice only, and shows the answer with the next delta. Full equality of a respawned and an uncrashed renderer is not claimed: a replay holds the latest message and warning only.
- In `CrashRecovery` all messages of one event are sent at one clock reading, and a session counts as running from an interim event before which neither the manager nor its process knew it.
- The countdown through a respawn is stated for warnings with a remaining time, the only kind the router sends.
- WebSocket, HTTP, JSON, evdev, uinput, Wayland, clipboard and process I/O: each attempt's outcome is an oracle value. A network error in the middle of a response is not modelled.
- UTF-8 decoding and JSON parsing are parameters of the stream model; tokenisation and Unicode normalisation are left out, and the metrics start from tokens.
- The focus router appears only as the optional output hint of an event; parent focus capture and stop targets are left out.
- Seconds are whole milliseconds and rates are real numbers; rounding, infinities and not-a-number are not modelled. Saturating 64-bit counters are unbounded.
- One send of the overlay process manager reads its clock once, and a process takes or refuses a message at once.
- A listener that never opened its device is one that attaches without held keys and exits. The order of events in the channel behind the hotkey lock, and stopping the supervisor, are left out.
- The fallback injector, the clipboard, and the worker's queue are outside: a job either gets into the queue or not, and reports come for queued jobs in any order and number.
- Timing fields, metrics counters, logging, audio feedback, painting and configuration carry no state the properties depend on.
- `_percentile` and the command metrics of `metrics.py` would only add simple members.
