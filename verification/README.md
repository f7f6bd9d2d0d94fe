# Voice-call core: a Dafny model

This project models the concurrent core of a telephone voice agent and proves what it keeps.

- **The session** (`SessionModel`, `SessionObject`, `SessionInvariants`, `SessionTurns`, `SessionTimers`,
  `SessionOutput`, `SessionTermination`, `SessionSteps`).
  A call is driven by a total table of 8 states and 11 input sources and by six named timers.
  `SessionModel` says what every input does to a record of all the session owns; `SessionObject` is the
  object itself, with one method per handler and a table filled by loops, proved to move its view
  exactly as those functions do. Proved over every run: which timers can be pending in which state,
  that no caller audio or text is lost or repeated, when turns complete and why, that a turn's cap never
  moves, that the silence clock is due one whole bound after whatever last started it, that accepted
  responses are heard once and at most one closing clip is played, that the line stays open for their
  playing time unless the carrier's mark answers, and that a silent call closes after a bounded number of
  firings and by a known instant. Time is a virtual clock in milliseconds; a timer is handled at any
  instant from its deadline on.
- **The timer facility** (`TimerFacility`). Commands, timer goroutines, the one-slot completion
  channel and the consumer's staleness check, interleaved. The check is exact; progress is not
  guaranteed, and the two rings it stops in are characterised and reached.
- **Voice activity** (`Vad`, `VadStream`, `MuLaw`). The hysteresis machine agrees with a definition
  that looks at the history alone; events come in a fixed grammar; framing cannot matter.
- **The replay harness** (`ReplayGate`, `ReplayFeed`). The token gate drops nothing exactly when a
  window is at least one 256-byte read; when it waits for ever; and that the trailing silence ends
  the last utterance.
- **The caller-silence bound** (`CallerSilence`, `SilenceRelay`, `SilenceEnds`) and **the filler** (`Filler`,
  `FillerCall`, `FillerPlays`). Each is an object under a mutex, with its methods proved against functions, and a
  protocol of atomic steps: the backend's read loop, the lossy event drain, the select loop, the write
  slot, marks, and timer callbacks that a stop cannot take back. Proved of each: what it must never do, and
  exactly when it does what it is for.
- **Data cores**: the mu-law and WAV pair (`MuLaw`, `Wav`), the driver's padded WAV (`PadSilence`),
  the log tail (`Tail`), the paced player (`Pacing`) and the drop-oldest plane (`Demux`).

`Common` holds shared vocabulary: flattening, finite sets, a clip repeated for ever, and the sizes and
voice events the whole call path agrees on (`Telephony`).
`dafny verify dfyconfig.toml` checks everything.

A run is a sequence of steps each enabled in turn (`Legal`), and `After` is where it ends. A theorem
over runs holds for every such sequence, so for every interleaving.

## What the code does that its comments do not say

- A completion the run loop is blocked on and one in the channel wedge the timer facility for good as
  soon as the consumer waits for the run loop, with a completion to check or with a timer to arm or cancel
  (`TimerFacility.WedgedForever`). Two timers due before the consumer's next command reach that
  (`TimerFacility.CommandWedgeIsReachable`), or three due before its first check
  (`TimerFacility.WedgeIsReachable`). The session model takes delivery as given.
- The replay gate is drop-free only for windows of at least 256 samples, and any four reads' worth of
  audio that no window completes closes it for good (`ReplayGate.DropFreeExactly`,
  `ReplayGate.DrainedGateOpens`, `ReplayGate.ShortReadsWedge`).
- A padded WAV may no longer decode, when the rewritten size field or the cut at the data's end touches
  the bits-per-sample field (`PadSilence.PaddedDecodesExactly`, with a 54-byte file in
  `PadSilence.PaddingCanMakeUnreadable`).
- The utterance timer can outlive its utterance (`SessionTimers.UtteranceTimerOutlivesItsUtterance`): it is
  pending exactly while nothing has ended the latest onset (`SessionTimers.UtteranceTimerExactly`). A "stop"
  while the response is awaited, and nothing else, leaves the response and bed timers pending in Closed
  (`SessionTimers.ClosingLeavesTimers`). The idle timer can be pending in AwaitingMarkEcho and Closed
  (`SessionTimers.IdleTimerOutlivesTheCall`), exactly when another cap fires over it
  (`SessionTimers.FarewellInheritsIdleTimer`).
- The replay harness pads with the byte 0x80 as silence, but 0x80 decodes to +32124, the loudest code; the
  padding is a constant full-scale level, and the padding theorem asks the detector to hear that as silence.
- The first window is stream window 1, not 0, and a turn end can fire on opening silence; after speech it
  comes no earlier than one silent window after the end of the utterance (`Vad.TurnAt`).
- An insert at depth zero blocks the drop-oldest plane (`Demux.InsertNeverBlocksExactly`).

## Model

| member | source | states |
|---|---|---|
| SessionObject.BuildTransitionTable | telephony/state.go:258-356 | filling defaults and overrides in the written order leaves in every cell the handler the lookup function names |
| SessionObject.Session.constructor | telephony/session.go:536-625 | a started session is Idle with only the idle timer pending and every buffer empty |
| SessionObject.Session.Dispatch | telephony/session.go:721-745 | one delivered input, timer completion or not, takes the whole session where the table's handler takes it |
| SessionObject.Session.DoDispatchFullPass | telephony/state.go:508-517 | the utterance buffer is handed over whole as one numbered pass and emptied, the utterance timer stops, the idle timer restarts |
| SessionObject.Session.DoSTTResult | telephony/state.go:560-607 | stale, foreign and partial results change nothing; a stopword or a remembered turn end completes the turn; only AwaitingFullResult moves on |
| SessionObject.Session.SendBedChunkOut | telephony/session.go:876-893 | the loop that copies across the clip's end sends exactly the next 200 ms of the clip repeated for ever |
| SessionObject.Session.SendClip | telephony/session.go:916-933 | the loop sends the clip as the frames it is cut into |
| SessionObject.CopyContinuesLoop | telephony/session.go:884-891 | a copy up to the clip's end, and the wrap after it, keeps the position in step with the repeated clip |
| SessionObject.ClipFramesWhole | telephony/session.go:916-933 | the frames of a clip put back together are the clip |
| SessionObject.ClipFramesSized | telephony/session.go:916-933 | no frame is empty or over 160 bytes and only the last is short |
| SessionObject.HandlerFitsEvent | telephony/state.go:258-356 | whatever the table selects for an input can read that input's payload |
| SessionInvariants.ReachableSession | telephony/state.go:409-477 | every reachable session: turnActive iff the turn timer is pending and then Listening or AwaitingFullResult; turnEndPending only in AwaitingFullResult; no idle timer while a response is awaited or played; response and bed timers only in AwaitingResponse or Closed; Terminating unreachable; a driving timer in every open state; one farewell mark last; at most one transport close |
| SessionInvariants.InvPreserved | telephony/session.go:721-745 | every enabled step keeps the whole invariant |
| SessionInvariants.NothingLostNothingRepeated | telephony/state.go:364-376 | over any run, passes then buffer are the frames delivered in states that take audio; completed turns then the open turn are the trimmed transcripts accepted; nothing is left open in AwaitingMarkEcho or Closed |
| SessionInvariants.TurnCapArmedOnce | telephony/state.go:409-435 | while a turn lasts its cap's deadline never moves and no turn is completed |
| SessionInvariants.TurnCapNeverMoves | telephony/state.go:409-435 | over any run within one turn the cap's deadline stays the one first set |
| SessionInvariants.TurnOpensWithItsCap | telephony/session.go:823-826 | only speech opens a turn, and its cap is then due one whole bound later |
| SessionInvariants.ClosedIsTerminal | telephony/state.go:789-796 | a closed session never leaves Closed and never writes, dispatches or records again |
| SessionInvariants.BedChunkKeepsStep | telephony/session.go:876-893 | across one wait the concatenated bed chunks are a prefix of the clip repeated for ever, for every clip length |
| SessionInvariants.DispatchKeeps | telephony/session.go:979-998 | queued requests carry the audio of the pass they are numbered after, in increasing order, also when a full queue drops one |
| SessionTurns.TurnsCompleteExactly | telephony/session.go:1295-1307 | every input completes no turn or exactly the open one, with everything heard in it, for the one reason this state and input give |
| SessionTurns.DeferralHolds | telephony/session.go:1375-1394 | a remembered turn end is forgotten only by completing the turn |
| SessionTurns.DeferredTurnIncludesItsPass | telephony/state.go:560-607 | the answering transcript becomes the last part of the deferred turn, which completes once, and the response wait starts with its cap armed |
| SessionTurns.TrimmedExactly | telephony/state.go:588 | an accepted transcript loses the whitespace at its two ends and nothing else |
| SessionSteps.StatesMoveExactly | telephony/state.go:258-356 | every input, from every state, leads where the state diagram says: a plain answer to the pass that is out returns to Listening, one that completes the turn goes on to the response wait; nothing else moves the state |
| SessionSteps.AudioMovesExactly | telephony/state.go:364-376 | a step hands the buffer over, under the next number, iff it is an end of utterance in Listening; a full recognizer queue loses the new request and a full forward channel the new frame |
| SessionSteps.PassesAreUtterances | telephony/state.go:493-517 | over any run the passes and the buffer are the audio delivered, cut at exactly the ends of utterance that found no pass out |
| SessionSteps.NextUtteranceIsPassed | telephony/state.go:560-607 | a plain answer returns the session to Listening, and the next end of utterance passes on everything buffered since the last, under the next number |
| SessionSteps.CapsMoveExactly | telephony/session.go:785-870 | every step arms, stops or leaves the turn cap, the response cap, the bed tick and the mark-echo backstop, and sets or clears the two turn flags, exactly as the turn, the wait and the echo call for |
| SessionSteps.WaitPlaysTheBed | telephony/session.go:876-893 | over any run of one response wait its cap keeps the deadline set at its start, and the caller has heard the thinking clip, repeated from its head, 200 ms for every tick handled |
| SessionSteps.ControlsWrittenExactly | telephony/session.go:935-963 | every step writes exactly the clear and marks its input calls for, and only the farewell's echo or backstop tears the transport down |
| SessionTimers.UtteranceTimerExactly | telephony/session.go:805-817 | over any run, whatever state it ends in, the utterance timer is pending iff the latest of onset, end of utterance and its own firing to be handled was an onset, and is due one whole bound after that onset |
| SessionTimers.WaitInheritsUtteranceTimer | telephony/session.go:1316-1322 | the wait for a response begins with it pending iff it was pending just before |
| SessionTimers.UtteranceTimerOutlivesItsUtterance | telephony/session.go:1375-1394 | a run of two utterances and a stopword exists that awaits the response with it pending |
| SessionTimers.SpeakingCallerNotTimed | telephony/state.go:409-435 | from a speech onset, over any in-progress run without an end of utterance, the idle timer is never pending |
| SessionTimers.SilenceClockExactly | telephony/session.go:779-787 | over any run the idle timer is due exactly one whole bound after the latest of the start, an end of utterance and a return to Listening, and off if an onset, the wait for a response or its own firing came after it |
| SessionTimers.EchoWaitIsPlayoutAndGrace | telephony/state.go:50-68 | the mark-echo backstop is the playing time in whole milliseconds plus half a second |
| SessionTimers.ClipHasTimeToPlay | telephony/session.go:935-963 | over any run from the step that plays the closing clip, the session is closed only after the farewell's own mark has come or the clip's whole playing time has passed |
| SessionTimers.ResponseHasTimeToPlay | telephony/state.go:703-723 | over any run from the step that plays a response, the playout ends only in Listening, on the response's own mark or once the frames' whole playing time has passed |
| SessionTimers.ClosingLeavesTimers | telephony/state.go:383-399 | a step that closes the session leaves the response and bed timers pending iff the response was awaited, and the idle timer as it was |
| SessionTimers.FarewellInheritsIdleTimer | telephony/state.go:609-640 | the farewell wait begins with the idle timer pending iff another timer's firing began it over a pending one |
| SessionTimers.IdleTimerOutlivesTheCall | telephony/state.go:633-640 | runs exist that reach AwaitingMarkEcho and Closed with the idle timer pending |
| SessionOutput.StepHeard | telephony/session.go:916-963 | one step adds to what the caller hears exactly the response it accepts, the clip it closes with, or nothing |
| SessionOutput.ClosesExactly | telephony/session.go:954-963 | a clip is played iff the session starts waiting for its farewell mark, and no state after that is open again |
| SessionOutput.ResponsesHeardOnce | telephony/session.go:1328-1341 | over any run every accepted response is heard once, whole and in order |
| SessionOutput.AtMostOneClip | telephony/state.go:609-690 | over any run at most one closing clip is sent, all of it, and none before the call is closing |
| SessionTermination.FiringConsumes | telephony/state.go:609-748 | each earliest-first firing strictly lowers state rank plus pending timers plus bed ticks left |
| SessionTermination.SomeTimerIsEarliest | telephony/session.go:721-870 | an open call always has an earliest pending timer |
| SessionTermination.QuietCallCloses | telephony/state.go:609-748 | from every reachable state a run of firings alone is bounded by that measure, and one that cannot go on has reached Closed |
| SessionTermination.QuietCallClosesBy | telephony/session.go:785-870 | handled on time, no such run goes past an instant read off the pending timers |
| SessionTermination.PromptRunCloses | telephony/session.go:721-870 | from every reachable state some run of timers handled when due reaches Closed, by that instant |
| SessionTermination.PromptRunGoesOn | telephony/session.go:721-870 | such a run that has not closed the call can be extended, so one that cannot is Closed |
| SessionTermination.SilentCallEndsInTime | telephony/session.go:785-870 | from any point of any call, total silence closes it within the longest cap plus one farewell echo, after any playout still owed, and no run of timers handled when due stays open longer |
| TimerFacility.RunLoop.HandleArm | telephony/timer.go:197-218 | a fresh generation replaces the name's entry and the superseded goroutine is told to stop |
| TimerFacility.RunLoop.HandleCancel | telephony/timer.go:220-234 | the name's entry and cancel function go, and its goroutine is told to stop |
| TimerFacility.RunLoop.EvictSettledTimers | telephony/timer.go:236-244 | the loop drops oldest settled generations past the bound, and an entry only when it is still theirs |
| TimerFacility.RunLoop.HandleFireTimerIfCurrent | telephony/timer.go:251-274 | a current generation settles and is owed a completion; a stale one does nothing |
| TimerFacility.CheckIsExact | telephony/timer.go:246-274 | in every interleaving a completion is current iff the last command on its name to return is the very arm that produced it |
| TimerFacility.FiringIsExact | telephony/timer.go:251-274 | in every interleaving a timer that comes due delivers a completion iff its arm is the last command on its name to have returned |
| TimerFacility.CancelFuncsAreRunning | telephony/timer.go:197-274 | no cancel function is leaked or lost: they are exactly those of the timer goroutines still running and not told to stop |
| TimerFacility.AcceptedAtMostOnce | telephony/timer.go:246-274 | no generation is accepted twice and acceptances follow firing order |
| TimerFacility.ActiveIsBounded | telephony/timer.go:236-244 | in every interleaving the active entries exceed the timer goroutines still running and not told to stop by at most 1024 |
| TimerFacility.CompletionsMoveUnlessWedged | telephony/timer.go:119-168 | a completion in flight or a command being handed over can be moved on iff run loop, channel and consumer are not waiting in a ring, the consumer on a check or on its own Arm or Cancel |
| TimerFacility.FewUncheckedNeverWedge | telephony/timer.go:246-274 | in every interleaving, no ring forms while fewer than two firings are still to be checked |
| TimerFacility.WedgedForever | telephony/timer.go:171-195 | once in that ring no command, from whichever goroutine, is ever taken again |
| TimerFacility.CommandWedgeIsReachable | telephony/timer.go:119-144 | two timers due before the consumer's next Arm or Cancel reach it |
| TimerFacility.WedgeIsReachable | telephony/timer.go:251-274 | three timers due before the consumer's first check reach it with a completion held |
| Vad.WindowsToCrossIsCeiling | telephony/vad.go:158-163 | the window count reaches the threshold and one fewer does not |
| Vad.SilenceMeasuredInWindows | telephony/vad.go:146-171 | an utterance, and a turn, ends after the fewest silent windows whose whole-millisecond lengths reach its bound; a window of less than a millisecond makes both counts zero |
| Vad.DefaultsFillTheRest | telephony/vad.go:106-141 | a default is taken exactly where a field is not positive, and resolving twice changes nothing |
| Vad.VADMachine.Advance | telephony/vad.go:290-352 | one window moves the machine's fields and raises its event as the step function says |
| Vad.StepTracks | telephony/vad.go:290-352 | the machine's fields and event are those its history determines, counters and onset included |
| Vad.MachineMeetsHistory | telephony/vad.go:290-352 | for every probability sequence each window raises exactly the event the silent-run definition calls for, with every counter stamped on it: silent run, stream position, voiced windows, and position since onset or, on a turn end, utterance length plus the wait since |
| Vad.EventsInGrammar | telephony/vad.go:290-352 | events come as an optional turn end, then speech, silences, end of utterance and an optional turn end, repeated |
| VadStream.Windower.Push | telephony/vad.go:253-267 | the loop yields every complete window and keeps the remainder |
| VadStream.WindowsCover | telephony/vad.go:253-267 | windows then remainder are the samples in order, and the remainder is shorter than a window |
| VadStream.PushSplit | telephony/vad.go:253-267 | pushing two pieces yields what pushing them joined does |
| VadStream.FeedAllIsWhole | telephony/vad.go:489-527 | frame by frame reaches the state computed from the whole byte stream |
| VadStream.FramingIrrelevant | telephony/vad.go:489-527 | two splittings of the same bytes give the same windows, events, machine and remainder |
| VadStream.DecodedInRange | telephony/vad.go:217-224 | a decoded sample is its code's share of full scale, never clipped, and zero for line silence |
| VadStream.RunVAD | telephony/vad.go:489-527 | the nested loop emits exactly the events of the whole stream and counts the windows that raised none; the two together are the whole windows in the bytes |
| MuLaw.LinearToMuLaw | telephony/mulaw.go:139-169 | the 256-way search returns the best code: nearest, then louder, then the higher zero |
| MuLaw.EncodesToNearest | telephony/mulaw.go:139-169 | a sample not below zero gets the code of its nearest level, one midway between two the louder |
| MuLaw.EncodesBelowZero | telephony/mulaw.go:139-169 | one below zero gets the same level with the other sign, and zero's one code near zero |
| MuLaw.DecodesByTheTable | telephony/vad.go:227-239 | the decoding table's shape: zero at 0xFF, intervals of 8 doubling every 16 codes and half as wide again across a boundary, and the lower half the upper one negated |
| MuLaw.MagnitudeGrows | telephony/vad.go:227-239 | louder codes decode to strictly larger magnitudes |
| MuLaw.DecodeInjective | telephony/vad.go:227-239 | only the two zeros share a decoded value |
| MuLaw.EncodeInvertsDecode | telephony/mulaw.go:139-169 | encoding a decoded code gives the code back, negative zero apart |
| MuLaw.BestIsUnique | telephony/mulaw.go:139-169 | the tie rule leaves one best code for every sample |
| ReplayGate.NothingDropped | telephony/replay.go:163-185 | in every interleaving with windows of at least a read: nothing dropped, releases at most acquires at most releases plus four, a free forward slot at every push, and bytes received then bytes in flight are the bytes fed |
| ReplayGate.TokensNeverExceed | telephony/replay.go:322-346 | whatever the window size, over any run the gate never holds more than its four tokens |
| ReplayGate.SettlingGivesBack | telephony/session.go:1235-1249 | a token comes back for every window settled, silently or once its event is delivered, and for nothing else |
| ReplayGate.DropFreeExactly | telephony/state.go:364-376 | no interleaving drops a frame iff the window is at least 256 samples |
| ReplayGate.SurplusOverflows | telephony/vad.go:405-445 | a shorter window builds a surplus until one read owes two releases and a fifth frame finds the buffer full |
| ReplayGate.StepsUnload | telephony/session.go:1235-1249 | every step but an acquire uses up the pipeline's load, so it always drains |
| ReplayGate.PipelineMoves | telephony/session.go:1235-1249 | until it has drained some step that needs no token can run |
| ReplayGate.DrainedGateOpens | telephony/replay.go:322-346 | once drained the producer can go on iff reads exceed completed windows by fewer than four; if not, nothing can ever run |
| ReplayGate.FullReadsKeepOpen | telephony/replay.go:322-346 | full reads against 256-sample windows never close the gate |
| ReplayGate.ShortReadsWedge | telephony/replay.go:322-346 | four one-byte reads close it for good |
| ReplayFeed.RecordedExactly | telephony/replay.go:322-346 | what counts as read is the data of every call through the first that ends the stream, that one's included |
| ReplayFeed.FeedReplayAudio | telephony/replay.go:322-346 | the frames sent are the bytes read through the call that ended the stream, none empty, and its error is returned |
| ReplayFeed.FeedSilencePadding | telephony/replay.go:385-404 | the padding is the end-silence window count plus four frames of the silence byte |
| ReplayFeed.PaddingIsLoudest | telephony/replay.go:40-46 | the padding byte decodes to +32124 and no code is louder |
| ReplayFeed.PaddingClosesUtterance | telephony/replay.go:376-404 | whatever the recording, enough whole windows of padding leave the machine not speaking |
| ReplayFeed.ShortWindowsClose | telephony/replay.go:376-404 | windows of at most 256 samples always get enough of it |
| CallerSilence.CallerSilence.DoCallerSpoke | telephony/twilio/realtime_callersilence.go:151-161 | a speech start counts, bumps the generation, clears unmarked audio and halts the count |
| CallerSilence.CallerSilence.DoObserve | telephony/twilio/realtime_callersilence.go:178-216 | the drain's half, event by event, including the tool call that halts the count and withdraws the request |
| CallerSilence.CallerSilence.DoClaim | telephony/twilio/realtime_callersilence.go:249-260 | a claim takes the unmarked audio and the generation iff on, in step with the tag, and there is audio |
| CallerSilence.CallerSilence.DoPlayed | telephony/twilio/realtime_callersilence.go:266-278 | a resolved mark starts the count iff its generation is live, nothing is pending and none runs |
| CallerSilence.CallerSilence.DoFire | telephony/twilio/realtime_callersilence.go:283-296 | only the live generation's running count becomes due |
| CallerSilence.CallerSilence.DoEnd | telephony/twilio/realtime_callersilence.go:302-314 | ends and latches iff still due |
| SilenceRelay.OwnedKept | telephony/twilio/realtime_callersilence.go:151-336 | every step keeps claims strictly ordered and a running or due count owned by the latest one |
| SilenceRelay.ClaimedAtMostOnce | telephony/twilio/realtime_callersilence.go:249-260 | every claim of a call captured its own generation |
| SilenceRelay.EndIsJustified | telephony/twilio/realtime_callersilence.go:266-314 | in every interleaving end returns true only with no caller speech or agent audio since the latest claim, no reply owed to a tool call when its mark played and no tool call observed since, and the bound elapsed since; that mark was asked for while the caller was not mid-utterance |
| SilenceRelay.TalliedKept | telephony/realtime/bridge.go:87-137 | the two speech counters are the starts dispatched and the starts published and observed, and the buffer holds exactly the published events not yet observed |
| SilenceRelay.ClaimSucceedsExactly | telephony/twilio/realtime_callersilence.go:178-260 | a claim for the request raised at an event succeeds iff agent audio has gone out since the last claim and the last caller speech, no earlier speech start was dropped and no later one has reached Clear |
| SilenceRelay.DroppedStartStopsClaims | telephony/realtime/bridge.go:237-247 | after one dropped and dispatched speech start no mark of the call is ever claimed again |
| SilenceRelay.AwakeKept | telephony/twilio/realtime_callersilence.go:142-147 | a wanted mark and an expired count are always signalled or being acted on |
| SilenceEnds.MarkStartsCountExactly | telephony/twilio/realtime_callersilence.go:262-278 | in every interleaving a resolved mark starts the count iff the bound is on, no caller speech and no agent audio came since its claim and no reply is owed to a tool call |
| SilenceEnds.CountRunsOutExactly | telephony/twilio/realtime_callersilence.go:283-296 | a started count whose timer runs becomes due iff the bound is on and no speech, audio or tool call came in between |
| SilenceEnds.EndsExactly | telephony/twilio/realtime_callersilence.go:302-314 | the loop, told that a count ran out, ends the call iff its latest claim justifies it |
| SilenceEnds.AnswerAsksForMark | telephony/twilio/realtime_callersilence.go:178-216 | an observed response asks for a mark iff it did not end in a tool call and the caller was not mid-utterance, and a tool call withdraws the request |
| SilenceEnds.RequestIsTaken | telephony/twilio/realtime_callersilence.go:220-231 | a loop woken for a request takes it, with the speech starts heard when it was made |
| SilenceEnds.DueEndsCall | telephony/twilio/realtime_callersilence.go:283-314 | once a count is due the loop, whatever it is doing, is at most four of its own steps from ending the call |
| SilenceEnds.SilentCallerIsEnded | telephony/twilio/realtime_callersilence.go:262-314 | after a mark that started the count, whatever else runs, a bound's length without speech, audio or tool call lets its timer run and the loop end the call |
| Filler.Filler.DoArm | telephony/twilio/realtime_filler.go:215-258 | a pending or playing wait is left alone; otherwise a new generation's start is scheduled |
| Filler.Filler.FrameLocked | telephony/twilio/realtime_filler.go:458-468 | the loop reads the next 160 bytes of the clip repeated for ever |
| Filler.Filler.NextFrame | telephony/twilio/realtime_filler.go:434-445 | the slot's decision: a frame and an advanced offset for the live playing generation, nothing for any other |
| FillerCall.PlayingExactly | telephony/twilio/realtime_filler.go:305-417 | playing holds iff an unexited play goroutine carries the live generation, and then exactly one does |
| FillerCall.PendingIsLive | telephony/twilio/realtime_filler.go:215-335 | a pending timer never coexists with playing and, run when due, begins the loop from the clip's start |
| FillerPlays.ArmLeavesAWait | telephony/twilio/realtime_filler.go:215-258 | unless the machine is shut down an arm leaves a wait or a playing loop behind it, one already under way untouched and a new one due the whole delay from now |
| FillerPlays.WaitStartsExactly | telephony/twilio/realtime_filler.go:305-335 | in every interleaving a start whose function runs begins the loop from its head iff it is the one pending |
| FillerPlays.GenerationMovesExactly | telephony/twilio/realtime_filler.go:265-300 | the live generation moves on with a stop, an arm that begins a wait and the end of its own episode, and with nothing else |
| FillerPlays.FramesGoOutExactly | telephony/twilio/realtime_filler.go:434-468 | in every interleaving a goroutine that asks gets the next stretch of the loop iff its generation is still live |
| FillerPlays.DueWaitPlays | telephony/twilio/realtime_filler.go:305-400 | from every state with a due wait and a free slot its start and one frame put the head of the loop on the wire |
| FillerPlays.NextFrameGoesOut | telephony/twilio/realtime_filler.go:343-400 | and every further tick its next stretch |
| FillerCall.DeadlineNeverMoves | telephony/twilio/realtime_filler.go:203-258 | over any run in which nothing stops the machine and the pending start does not run, the same countdown stays pending, however often the wait is re-armed |
| FillerCall.NoFrameAfterItsClear | telephony/twilio/realtime.go:2095-2151 | no frame of a stopped generation reaches the wire after the clear sent for that stop |
| FillerCall.OwedClearsAreSent | telephony/twilio/realtime.go:1970-2005 | a reply frame whose Media call ended a playing loop follows a clear of that loop, and every farewell frame follows a clear of whatever was live when the farewell began |
| FillerPlays.MediaReachesWire | telephony/twilio/realtime.go:1970-2005 | media reaches the wire, alone if the loop was off and otherwise right behind the clear that ends it |
| FillerCall.FarewellOwnsWire | telephony/twilio/realtime.go:1393-1459 | after a farewell frame nothing but the farewell is written, and what is written of it is a prefix of the clip |
| FillerPlays.FarewellFinishesWhole | telephony/twilio/realtime.go:1393-1459 | a farewell that ends of itself has put its whole clip on the wire |
| FillerPlays.ClipRuns | telephony/twilio/realtime.go:1393-1459 | with the slot free the farewell gets through its clip to the end |
| FillerCall.EpisodeIsLoopPrefix | telephony/twilio/realtime_filler.go:343-468 | every episode's frames on the wire are a prefix of the clip repeated for ever |
| FillerCall.SlotKept | telephony/twilio/realtime.go:1908-1928 | one writer at a time, and the slot says which |
| Wav.MulawToWAV | telephony/wav.go:15-47 | the in-place writer produces header fields and little-endian samples exactly as the layout says |
| Wav.HeaderDescribesFile | telephony/wav.go:15-47 | the header's sizes are those of the file it heads, and its rates and widths agree with one another |
| Wav.WalkWAVChunks | telephony/mulaw.go:59-69 | the chunks visited are those up to and including the first the visitor stops at |
| Wav.WalkReadsPieces | telephony/mulaw.go:52-70 | whatever chunks a writer lays out, of odd or even length, the walk lists in order |
| Wav.WalkEndsAtData | telephony/mulaw.go:102-112 | the last chunk visited is the first data chunk, when there is one |
| Wav.DecodeWAVToPCM16 | telephony/mulaw.go:72-133 | every error branch in order, and channels averaged truncating toward zero |
| Wav.FramesAverage | telephony/mulaw.go:114-133 | every decoded sample is the average of its frame's channels rounded toward zero |
| Wav.ResampleToMono8kHz | telephony/mulaw.go:179-202 | the loop yields one sample for every whole 8 kHz position, on the straight line between the two input samples around it |
| Wav.ResampledLength | telephony/mulaw.go:179-202 | there are as many output samples as whole 8 kHz periods in the input |
| Wav.ResampledOnTheLine | telephony/mulaw.go:179-202 | each lies on the straight line through the two input samples its instant falls between, rounded toward zero, and on the last input sample is that sample |
| Wav.ResampleStaysInside | telephony/mulaw.go:179-202 | every output position has an input sample under it, so no output sample is left at the zero it was made with |
| Wav.WholeMultipleDecimates | telephony/mulaw.go:179-202 | from m times 8 kHz resampling is exactly every m-th sample |
| Wav.EncodeMuLawFrames | telephony/mulaw.go:17-50 | every sample, resampled when the file is not at 8 kHz, gets its best code, in whole 160-byte frames, the last filled with silence; decode errors pass through and a zero sample rate divides by zero |
| Wav.DecodeInvertsWrap | telephony/wav.go:15-47 | what the writer wraps the decoder unwraps: the same samples at the same rate |
| Wav.RoundTrip | telephony/mulaw.go:17-50 | wrapping at 8 kHz then encoding returns every clip that fits the header, 0x7F as 0xFF, padded with 0xFF; an empty clip gives no frames |
| Wav.WrapThenEncode | telephony/mulaw.go:17-50 | the same law about the two methods run one after the other |
| PadSilence.PadWAVSilence | driver/driver.go:977-1017 | a file that is not a readable WAV is returned unchanged; any other is padded and patched |
| PadSilence.PlanCountsInByteRate | driver/driver.go:985-1009 | the seconds are counted in the byte rate, bytes 8 to 11, of the last format chunk before the data that has its sixteen bytes; a rate of zero leaves the file alone |
| PadSilence.NoFormatNoPadding | driver/driver.go:985-1009 | a file without such a chunk is left alone |
| PadSilence.WrappedClipPadded | driver/driver.go:980-1015 | a wrapped clip gets one second of its own rate, and is brought up to four |
| PadSilence.PaddedBytes | driver/driver.go:1009-1017 | the two size fields apart, the result is the original up to its data's end and zeros after |
| PadSilence.PaddingKeepsChunks | driver/driver.go:977-1017 | the same chunks at the same offsets up to data, whose new size runs exactly to the end and is at least four seconds and the old size plus one |
| PadSilence.PaddedDecodesExactly | telephony/mulaw.go:72-133 | the result decodes iff it is long enough and its bits-per-sample field survived the size patch and the cut, and then the original samples come first |
| PadSilence.OrdinaryFilesDecode | driver/driver.go:977-1017 | a format chunk of at least sixteen bytes is enough |
| PadSilence.PaddingCanMakeUnreadable | driver/driver.go:977-1017 | a file the decoder reads whose padded form it refuses |
| Tail.SliceTailOf | cmd/aa-server-status/engine.go:1613-1634 | the loop drops every trailing empty line and keeps the last n |
| Tail.SliceTailExactly | cmd/aa-server-status/engine.go:1613-1634 | the tail is a stretch of the lines that ends in a non-empty one with only empty ones behind it, n long unless it reaches back to the start |
| Tail.SplitIsLines | cmd/aa-server-status/engine.go:1613-1634 | the lines joined by newlines are the text and none holds a newline |
| Tail.StopEarly | cmd/aa-server-status/engine.go:1574-1604 | a suffix with n separators outside its trailing newlines has the whole's tail |
| Tail.TailLines | cmd/aa-server-status/engine.go:1560-1607 | the backward read equals splitting the whole content, for every content, count and chunk size, newline runs across chunks included |
| Pacing.AudioPlayer.AwaitTurn | cmd/twilio-cli/playback.go:266-282 | a paced turn restarts, sleeps and advances the audio clock as specified; an unpaced one leaves it alone |
| Pacing.AudioPlayer.WriteLoop | cmd/twilio-cli/playback.go:227-257 | every frame is written in order and paced, the first failure is kept and every one passed over, barriers close in their place |
| Pacing.FirstFailureIsFirst | cmd/twilio-cli/playback.go:243-256 | the failure kept is that of the earliest frame the sink did not take |
| Pacing.EachFrameInPlace | cmd/twilio-cli/playback.go:227-258 | every frame the sink takes lies right behind all those taken before it, whatever failed between |
| Pacing.FramesGoOutWhenDue | cmd/twilio-cli/playback.go:268-283 | over any run every frame goes out at once when at most the lead of audio is ahead of it and otherwise when just the lead is left, plus the sleep's overrun; the audio ahead is what was written before, unless none was or it ran out more than the catch-up allowance ago |
| Pacing.SinkNeverRunsDry | cmd/twilio-cli/playback.go:268-283 | a player supplied in real time, whose sleeps overrun by at most the lead, has every frame out before the audio ahead of it ends |
| Pacing.NeverMoreThanLeadAhead | cmd/twilio-cli/playback.go:259-282 | at every release the audio already written is at most 200 ms ahead of the clock |
| Pacing.RateBounded | cmd/twilio-cli/playback.go:266-282 | for any turns a to b the audio released is at most the elapsed time plus lead, catch-up and b's length, for any lengths and oversleeping |
| Demux.DropOldestPlane.Send | telephony/twilio/demux.go:97-129 | an uninterrupted send keeps the newest frames that fit, counts its eviction, and does nothing after close |
| Demux.PlaneAccounts | telephony/twilio/demux.go:97-188 | in every interleaving frames sent split in order into taken then buffered, the counter is the current episode's evictions, stop lines account for the earlier ones, and no send meets a closed channel |
| Demux.InsertNeverBlocksExactly | telephony/twilio/demux.go:113-129 | the second insert never blocks iff the depth is at least one |
| Demux.ClosedPlaneDrains | telephony/twilio/demux.go:131-164 | after close nothing is added or evicted and everything buffered is delivered, in order, before the closed report |

## Left out

- HTTP, WebSocket, ffplay, file, log and trace output, JSON and base64 encoding, and the Python sidecars: not part of this model.
- Context cancellation, except where a step may fail or a call may end at any point: a cancelled wait is a step that does not happen.
- Delivery of timer completions to the session is taken as given; `TimerFacility` says when it can fail.
- Sends to the carrier that fail or block: a wired plane takes every frame the session gives it.
- Session decision records, the turn sink's log lines, the model-route verdict channel and the once-per-pair suppression of the not-implemented handler: they change no modelled state.
- Dispatch: handlers that only log leave the session as it is; wall-clock time stands still while a handler runs.
- WithDefaults: thresholds and probabilities are reals, so float32 rounding is not modelled; so are decoded samples.
- Detector errors, which end the VAD goroutine, and the Silero model itself: the detector is any function of the windows heard so far.
- FramingIrrelevant: frames are those the VAD received; `ReplayGate` says when that is every frame fed.
- NothingDropped: the session stays in states that take audio, as a replay's raised timer bounds intend; the WaitGroup ordering argument is not modelled.
- PaddingClosesUtterance: asks that a window of pure padding, which is full-scale audio, be heard as silence; only the detector can promise that.
- MuLawToLinear: the shifts and masks of the decoder are written as division and multiplication.
- Resampled: interpolation is exact and truncated toward zero; float64 rounding is not modelled.
- Generation counters, request numbers and sequence numbers are unbounded; 64-bit wrap-around is not modelled.
- WalkWAVChunks: chunk sizes are non-negative, as they are where int has 64 bits.
- PadWAVSilence: the two floating-point products are exact below 2^53 and are written as integers.
- PaddingKeepsChunks: asks that the new data size fit 32 bits.
- TailLines: reads are complete, so a file that shrinks while it is read is not modelled; truncating long lines (nowrap) is left out.
- WriteLoop: the player's queue bound and flush are not modelled.
- The consumer's own marks, the mark bounds' arithmetic and the farewell's wait for its echo: a mark here is written once and resolves at most once.
- DeadlineNeverMoves: stopped timers may still run their functions once due, which is more than the runtime allows and so covers it.
- FarewellOwnsWire: consumer marks share the wire but not the model; they are written from the goroutine that plays the farewell.
- Bridge transcripts, activity ticks and the bounded logging of drops.
- Control-plane overflow, chunk-gap checks and routing in the demultiplexer.
