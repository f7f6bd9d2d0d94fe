/** Which timers run when: the utterance cap, the silence clock, the echo waits, and the timers that outlive their state. */
module SessionTimers {
  import opened Common
  import opened SessionModel
  import opened Telephony
  import opened SessionInvariants

  /** The states whose voice events the session acts on. */
  predicate Attending(st: SessionState) { st == Listening || st == AwaitingFullResult }

  predicate IsOnset(v: View, step: Step) { step.Deliver? && step.ev == Vad(Speech) && Attending(v.m.state) }

  predicate IsEnd(v: View, step: Step) { step.Deliver? && step.ev == Vad(EndOfUtterance) && Attending(v.m.state) }

  predicate IsFiring(step: Step, t: Timer) { step.Deliver? && step.ev == TimerFired(t) }

  // ---- one step ------------------------------------------------------------------------------

  lemma FiringAlone(cfg: Config, v: View, t: Timer, at: nat)
    requires Enabled(v, Deliver(TimerFired(t), at))
    ensures var w := Next(cfg, v, Deliver(TimerFired(t), at));
            && w.m.live.utterance == (if t == TUtterance then Off else v.m.live.utterance)
            && (w.m.state != Listening || v.m.state == Listening ==>
                  w.m.live.idle == if t == TIdle then Off else v.m.live.idle)
  {
    hide FlushTranscripts, SendBedChunk, MarkEchoTimeout, ClipFrames, SendMark, SendAudio, AsClip,
      HandleVAD, HandleSTTResult, HandleResponseReady, HandleDataFrame, HandlePlayoutEcho,
      HandleMarkEcho, HandleControlEvent;
    match t
    case TIdle =>
    case TMarkEcho =>
    case TUtterance =>
    case TResponse =>
    case TTurn =>
    case TBedTick =>
  }

  lemma SttLeavesUtterance(cfg: Config, v: View, ev: Event)
    requires ev.Stt?
    ensures HandleSTTResult(cfg, v, ev).m.live.utterance == v.m.live.utterance
  {
    hide TrimSpace, FlushTranscripts, Accept;
  }

  lemma InputAlone(cfg: Config, v: View, ev: Event)
    requires !ev.TimerFired?
    ensures var w := Handle(cfg, v, Lookup(v.m.state, SourceOf(ev)), ev);
            w.m.live.utterance ==
            if ev == Vad(Speech) && Attending(v.m.state) then At(v.m.now + cfg.UtteranceMS())
            else if ev == Vad(EndOfUtterance) && Attending(v.m.state) then Off
            else v.m.live.utterance
  {
    hide FlushTranscripts, MarkEchoTimeout, SendMark, SendAudio, SendClear, AsResponse, Flatten, TakeFrame,
      DispatchSTT, SendBedChunk, TerminateWithClip, HandleSTTResult, HandleBedTick, HandleResponseTimeout;
    match ev
    case Data(_) =>
    case Control(_, _) =>
    case Vad(_) =>
    case Stt(_, _, _, _) => SttLeavesUtterance(cfg, v, ev);
    case Response(_, _) =>
  }

  /** Only an onset, an end of utterance and its own firing touch the utterance timer. */
  lemma UtteranceStep(cfg: Config, v: View, step: Step)
    requires Enabled(v, step)
    ensures Next(cfg, v, step).m.live.utterance ==
            if IsOnset(v, step) then At(step.at + cfg.UtteranceMS())
            else if IsEnd(v, step) || IsFiring(step, TUtterance) then Off
            else v.m.live.utterance
  {
    hide Handle, Lookup;
    match step
    case Deliver(ev, at) =>
      if ev.TimerFired? {
        FiringAlone(cfg, v, ev.timer, at);
      } else {
        InputAlone(cfg, v.(m := v.m.(now := at)), ev);
      }
    case _ =>
  }

  // ---- the utterance timer, over runs ----------------------------------------------------------

  /** The onset that the latest of onset, end of utterance and the timer's own firing in a run was, if it was one. */
  ghost function OpenSince(cfg: Config, v: View, steps: seq<Step>, since: Option<nat>): Option<nat>
    requires Legal(cfg, v, steps)
    decreases |steps|
  {
    if steps == [] then since
    else
      var now := if IsOnset(v, steps[0]) then Some(steps[0].at)
                 else if IsEnd(v, steps[0]) || IsFiring(steps[0], TUtterance) then None
                 else since;
      OpenSince(cfg, Next(cfg, v, steps[0]), steps[1..], now)
  }

  function CapFrom(cfg: Config, since: Option<nat>): Pending {
    if since.Some? then At(since.value + cfg.UtteranceMS()) else Off
  }

  lemma {:induction false} UtteranceFollows(cfg: Config, v: View, steps: seq<Step>, since: Option<nat>)
    requires Legal(cfg, v, steps) && v.m.live.utterance == CapFrom(cfg, since)
    ensures After(cfg, v, steps).m.live.utterance == CapFrom(cfg, OpenSince(cfg, v, steps, since))
    decreases |steps|
  {
    hide Next, Enabled, IsEnd;
    if steps != [] {
      var now := if IsOnset(v, steps[0]) then Some(steps[0].at)
                 else if IsEnd(v, steps[0]) || IsFiring(steps[0], TUtterance) then None
                 else since;
      UtteranceStep(cfg, v, steps[0]);
      UtteranceFollows(cfg, Next(cfg, v, steps[0]), steps[1..], now);
    }
  }

  /**
   Over any run of a call, in whatever state it ends, the utterance timer is pending exactly
   when the latest of {speech onset, end of utterance, its own firing} to be handled was an
   onset, and is then due one whole bound after that onset.
   */
  lemma UtteranceTimerExactly(cfg: Config, at: nat, steps: seq<Step>)
    requires Legal(cfg, Started(cfg, at), steps)
    ensures After(cfg, Started(cfg, at), steps).m.live.utterance ==
            CapFrom(cfg, OpenSince(cfg, Started(cfg, at), steps, None))
  {
    UtteranceFollows(cfg, Started(cfg, at), steps, None);
  }

  /** The wait for a response begins with the utterance timer pending exactly when it was pending before. */
  lemma WaitInheritsUtteranceTimer(cfg: Config, v: View, step: Step)
    requires Enabled(v, step)
    requires v.m.state != AwaitingResponse && Next(cfg, v, step).m.state == AwaitingResponse
    ensures Next(cfg, v, step).m.live.utterance == v.m.live.utterance
  {
    UtteranceStep(cfg, v, step);
    OnlyTurnEndsAndResultsWait(cfg, v, step);
    hide Next, Enabled;
  }

  lemma OnlyTurnEndsAndResultsWait(cfg: Config, v: View, step: Step)
    requires Enabled(v, step)
    requires v.m.state != AwaitingResponse && Next(cfg, v, step).m.state == AwaitingResponse
    ensures step.Deliver? && (step.ev.Stt? || step.ev == Vad(TurnEnd))
  {
    hide FlushTranscripts, MarkEchoTimeout, ClipFrames, SendMark, SendAudio, SendClear, AsClip, AsResponse, Flatten,
      TakeFrame, DispatchSTT, SendBedChunk, TrimSpace;
  }

  // ---- the silence clock -------------------------------------------------------------------------

  /** A speech onset stops the silence clock and starts the utterance's cap. */
  lemma OnsetStopsSilenceClock(cfg: Config, v: View, step: Step)
    requires Enabled(v, step) && IsOnset(v, step)
    ensures var w := Next(cfg, v, step);
            w.m.live.idle == Off && w.m.live.utterance == At(step.at + cfg.UtteranceMS()) && w.m.state == v.m.state
  {
  }

  /** A run that stays in progress and hears no end of utterance. */
  ghost predicate StillSpeaking(cfg: Config, v: View, steps: seq<Step>)
    requires Legal(cfg, v, steps)
    decreases |steps|
  {
    InProgress(v.m.state) &&
    (steps == [] || (!IsEnd(v, steps[0]) && StillSpeaking(cfg, Next(cfg, v, steps[0]), steps[1..])))
  }

  lemma SpeakingStep(cfg: Config, v: View, step: Step)
    requires Enabled(v, step) && !IsEnd(v, step)
    requires InProgress(v.m.state) && InProgress(Next(cfg, v, step).m.state) && v.m.live.idle == Off
    ensures Next(cfg, v, step).m.live.idle == Off
  {
    IdleStep(cfg, v, step);
    hide Next, Enabled;
  }

  lemma {:induction false} SilenceClockStaysOff(cfg: Config, v: View, steps: seq<Step>)
    requires Legal(cfg, v, steps) && StillSpeaking(cfg, v, steps) && v.m.live.idle == Off
    ensures After(cfg, v, steps).m.live.idle == Off
    decreases |steps|
  {
    hide Next, Enabled, IsEnd;
    if steps != [] {
      assert StillSpeaking(cfg, Next(cfg, v, steps[0]), steps[1..]);
      SpeakingStep(cfg, v, steps[0]);
      SilenceClockStaysOff(cfg, Next(cfg, v, steps[0]), steps[1..]);
    }
  }

  /** A speaking caller is never on the silence clock: from an onset until an end of utterance it stays off. */
  lemma SpeakingCallerNotTimed(cfg: Config, v: View, onset: Step, steps: seq<Step>)
    requires Enabled(v, onset) && IsOnset(v, onset)
    requires Legal(cfg, Next(cfg, v, onset), steps) && StillSpeaking(cfg, Next(cfg, v, onset), steps)
    ensures After(cfg, Next(cfg, v, onset), steps).m.live.idle == Off
  {
    OnsetStopsSilenceClock(cfg, v, onset);
    hide Next, Enabled, IsOnset;
    SilenceClockStaysOff(cfg, Next(cfg, v, onset), steps);
  }

  /** Coming back to the caller after a response, played or failed. */
  predicate ComesBack(v: View, w: View) {
    (v.m.state == AwaitingResponse || v.m.state == AwaitingResponsePlayout) && w.m.state == Listening
  }

  predicate StartsWait(v: View, w: View) { v.m.state != AwaitingResponse && w.m.state == AwaitingResponse }

  /** The idle timer after a step: restarted whole, stopped, or left exactly as it was. */
  function IdleAfter(cfg: Config, v: View, step: Step, w: View): Pending {
    if step.Deliver? && (IsEnd(v, step) || ComesBack(v, w)) then At(step.at + cfg.IdleMS())
    else if IsOnset(v, step) || StartsWait(v, w) || IsFiring(step, TIdle) then Off
    else v.m.live.idle
  }

  lemma TimerIdles(cfg: Config, v: View, t: Timer, at: nat)
    requires Enabled(v, Deliver(TimerFired(t), at))
    ensures var step := Deliver(TimerFired(t), at);
            Next(cfg, v, step).m.live.idle == IdleAfter(cfg, v, step, Next(cfg, v, step))
  {
    hide FlushTranscripts, SendBedChunk, MarkEchoTimeout, ClipFrames, SendMark, SendAudio, AsClip,
      HandleVAD, HandleSTTResult, HandleResponseReady, HandleDataFrame, HandlePlayoutEcho,
      HandleMarkEcho, HandleControlEvent;
    match t
    case TIdle =>
    case TMarkEcho =>
    case TUtterance =>
    case TResponse =>
    case TTurn =>
    case TBedTick =>
  }

  lemma SttIdles(cfg: Config, v: View, ev: Event)
    requires ev.Stt?
    ensures var w := HandleSTTResult(cfg, v, ev);
            w.m.live.idle == if StartsWait(v, w) then Off else v.m.live.idle
    ensures !ComesBack(v, HandleSTTResult(cfg, v, ev))
  {
    hide TrimSpace, FlushTranscripts, Accept;
  }

  lemma VadIdles(cfg: Config, v: View, ev: Event)
    requires ev.Vad?
    ensures var w := Handle(cfg, v, Lookup(v.m.state, VADEvent), ev);
            w.m.live.idle == IdleAfter(cfg, v, Deliver(ev, v.m.now), w)
  {
    hide FlushTranscripts, DispatchSTT;
  }

  lemma InputIdles(cfg: Config, v: View, ev: Event)
    requires !ev.TimerFired?
    ensures var w := Handle(cfg, v, Lookup(v.m.state, SourceOf(ev)), ev);
            w.m.live.idle == IdleAfter(cfg, v, Deliver(ev, v.m.now), w)
  {
    hide FlushTranscripts, MarkEchoTimeout, SendMark, SendAudio, SendClear, AsResponse, Flatten, TakeFrame,
      DispatchSTT, SendBedChunk, TerminateWithClip, HandleBedTick, HandleResponseTimeout, HandleSTTResult,
      HandleVAD;
    match ev
    case Data(_) =>
    case Control(_, _) =>
    case Vad(_) => VadIdles(cfg, v, ev);
    case Stt(_, _, _, _) => SttIdles(cfg, v, ev);
    case Response(_, _) =>
  }

  /** Only these touch the idle timer: an end of utterance or a return restarts it whole, the rest stop it. */
  lemma IdleStep(cfg: Config, v: View, step: Step)
    requires Enabled(v, step)
    ensures Next(cfg, v, step).m.live.idle == IdleAfter(cfg, v, step, Next(cfg, v, step))
  {
    hide Handle, Lookup;
    match step
    case Deliver(ev, at) =>
      if ev.TimerFired? {
        TimerIdles(cfg, v, ev.timer, at);
      } else {
        InputIdles(cfg, v.(m := v.m.(now := at)), ev);
      }
    case _ =>
  }

  /** When the silence clock was last restarted in a run, or None if something has stopped it since. */
  ghost function SilentSince(cfg: Config, v: View, steps: seq<Step>, since: Option<nat>): Option<nat>
    requires Legal(cfg, v, steps)
    decreases |steps|
  {
    if steps == [] then since
    else
      var step, w := steps[0], Next(cfg, v, steps[0]);
      var now := if step.Deliver? && (IsEnd(v, step) || ComesBack(v, w)) then Some(step.at)
                 else if IsOnset(v, step) || StartsWait(v, w) || IsFiring(step, TIdle) then None
                 else since;
      SilentSince(cfg, w, steps[1..], now)
  }

  function DueFrom(cfg: Config, since: Option<nat>): Pending {
    if since.Some? then At(since.value + cfg.IdleMS()) else Off
  }

  lemma {:induction false} IdleFollows(cfg: Config, v: View, steps: seq<Step>, since: Option<nat>)
    requires Legal(cfg, v, steps) && v.m.live.idle == DueFrom(cfg, since)
    ensures After(cfg, v, steps).m.live.idle == DueFrom(cfg, SilentSince(cfg, v, steps, since))
    decreases |steps|
  {
    hide Next, Enabled, IsOnset, IsEnd, ComesBack, StartsWait;
    if steps != [] {
      var w := Next(cfg, v, steps[0]);
      IdleStep(cfg, v, steps[0]);
      var step := steps[0];
      var now := if step.Deliver? && (IsEnd(v, step) || ComesBack(v, w)) then Some(step.at)
                 else if IsOnset(v, step) || StartsWait(v, w) || IsFiring(step, TIdle) then None
                 else since;
      IdleFollows(cfg, w, steps[1..], now);
    }
  }

  /**
   Over any run of a call the idle timer is due exactly one whole bound after the silence
   clock last started (at the start, an end of utterance or a return to Listening), and off
   once an onset, the wait for a response or its own firing has stopped it.
   */
  lemma SilenceClockExactly(cfg: Config, at: nat, steps: seq<Step>)
    requires Legal(cfg, Started(cfg, at), steps)
    ensures After(cfg, Started(cfg, at), steps).m.live.idle ==
            DueFrom(cfg, SilentSince(cfg, Started(cfg, at), steps, Some(at)))
  {
    IdleFollows(cfg, Started(cfg, at), steps, Some(at));
  }

  // ---- the echo waits ------------------------------------------------------------------------------

  predicate IsMark(step: Step, name: string) {
    step.Deliver? && step.ev.Control? && step.ev.kind == KIND_MARK && step.ev.markName == name
  }

  /** At least as long has passed as that many mu-law bytes take to play. */
  predicate HasPlayed(from: nat, to: nat, bytes: nat) { (to - from) * SAMPLE_RATE_HZ >= bytes * 1000 }

  lemma EchoWaitCoversPlayout(from: nat, to: nat, bytes: nat)
    requires to >= from + MarkEchoTimeout(bytes)
    ensures HasPlayed(from, to, bytes)
  {
    var ms := bytes * 1000 / SAMPLE_RATE_HZ;
    assert bytes * 1000 == ms * SAMPLE_RATE_HZ + bytes * 1000 % SAMPLE_RATE_HZ;
  }

  /** The backstop is the playing time in whole milliseconds, and half a second more. */
  lemma EchoWaitIsPlayoutAndGrace(bytes: nat)
    ensures var ms := MarkEchoTimeout(bytes) - 500;
            ms * SAMPLE_RATE_HZ <= bytes * 1000 < (ms + 1) * SAMPLE_RATE_HZ
  {
    var ms := bytes * 1000 / SAMPLE_RATE_HZ;
    assert bytes * 1000 == ms * SAMPLE_RATE_HZ + bytes * 1000 % SAMPLE_RATE_HZ;
  }

  /** The bounds a call runs under: its own where it sets one, and otherwise the package's. */
  lemma BoundsResolved(cfg: Config)
    ensures cfg.IdleMS() == (if cfg.idleTimeoutMS >= 1 then cfg.idleTimeoutMS else 15_000)
    ensures cfg.UtteranceMS() == (if cfg.utteranceTimeoutMS >= 1 then cfg.utteranceTimeoutMS else 45_000)
    ensures cfg.TurnMS() == (if cfg.turnTimeoutMS >= 1 then cfg.turnTimeoutMS else 60_000)
    ensures cfg.ResponseMS() == (if cfg.responseTimeoutMS >= 1 then cfg.responseTimeoutMS else 45_000)
  {
  }

  /** The farewell wait starts its backstop behind the whole clip it played. */
  lemma FarewellWaitBegins(cfg: Config, v: View, step: Step)
    requires Enabled(v, step)
    requires v.m.state != AwaitingMarkEcho && Next(cfg, v, step).m.state == AwaitingMarkEcho
    ensures step.Deliver? && step.ev.TimerFired?
    ensures var clip := if step.ev.timer == TUtterance || step.ev.timer == TTurn then cfg.forcedStop else cfg.farewell;
            Next(cfg, v, step).m.live.markEcho == At(step.at + MarkEchoTimeout(|clip|))
  {
    OnlyTimersTerminate(cfg, v, step);
    hide FlushTranscripts, MarkEchoTimeout, ClipFrames, SendMark, SendAudio, AsClip, SendBedChunk,
      HandleVAD, HandleSTTResult, HandleResponseReady, HandleDataFrame, HandlePlayoutEcho,
      HandleMarkEcho, HandleControlEvent;
    match step.ev.timer
    case TIdle =>
    case TMarkEcho =>
    case TUtterance =>
    case TResponse =>
    case TTurn =>
    case TBedTick =>
  }

  lemma OnlyTimersTerminate(cfg: Config, v: View, step: Step)
    requires Enabled(v, step)
    requires v.m.state != AwaitingMarkEcho && Next(cfg, v, step).m.state == AwaitingMarkEcho
    ensures step.Deliver? && step.ev.TimerFired?
  {
    hide FlushTranscripts, SendMark, SendAudio, SendClear, AsResponse, Flatten, TakeFrame, DispatchSTT, SendBedChunk,
      TrimSpace, TerminateWithClip;
  }

  /** Until the farewell's own mark or the backstop, the wait and its deadline stay as they are. */
  lemma FarewellWaitStep(cfg: Config, v: View, step: Step)
    requires Enabled(v, step) && v.m.state == AwaitingMarkEcho
    ensures var w := Next(cfg, v, step);
            if IsMark(step, FAREWELL_MARK) || IsFiring(step, TMarkEcho) then w.m.state == Closed
            else w.m.state == AwaitingMarkEcho && w.m.live.markEcho == v.m.live.markEcho
  {
  }

  lemma {:induction false} FarewellWaitKept(cfg: Config, v: View, steps: seq<Step>, from: nat, bytes: nat)
    requires Legal(cfg, v, steps) && steps != []
    requires v.m.state == AwaitingMarkEcho && v.m.live.markEcho == At(from + MarkEchoTimeout(bytes))
    requires After(cfg, v, steps).m.state == Closed
    ensures exists k :: 0 <= k < |steps| && (IsMark(steps[k], FAREWELL_MARK)
                                             || (steps[k].Deliver? && HasPlayed(from, steps[k].at, bytes)))
    decreases |steps|
  {
    hide Next, MarkEchoTimeout, HasPlayed;
    FarewellWaitStep(cfg, v, steps[0]);
    var w := Next(cfg, v, steps[0]);
    if IsMark(steps[0], FAREWELL_MARK) {
    } else if IsFiring(steps[0], TMarkEcho) {
      FiredWhenDue(v, TMarkEcho, steps[0].at);
      EchoWaitCoversPlayout(from, steps[0].at, bytes);
    } else {
      assert steps[1..] != [];
      FarewellWaitKept(cfg, w, steps[1..], from, bytes);
      var k :| 0 <= k < |steps[1..]| && (IsMark(steps[1..][k], FAREWELL_MARK)
                                         || (steps[1..][k].Deliver? && HasPlayed(from, steps[1..][k].at, bytes)));
      assert steps[k + 1] == steps[1..][k];
    }
  }

  lemma FiredWhenDue(v: View, t: Timer, at: nat)
    requires Enabled(v, Deliver(TimerFired(t), at))
    ensures v.m.live.Due(t).At? && at >= v.m.live.Due(t).due
  {
  }

  /**
   The line stays open for the closing clip: over any run from the step that plays it, the
   session is closed only by the farewell's own mark or once the clip's whole playing time
   has passed.
   */
  lemma ClipHasTimeToPlay(cfg: Config, v: View, entry: Step, steps: seq<Step>)
    requires Enabled(v, entry)
    requires v.m.state != AwaitingMarkEcho && Next(cfg, v, entry).m.state == AwaitingMarkEcho
    requires Legal(cfg, Next(cfg, v, entry), steps) && After(cfg, Next(cfg, v, entry), steps).m.state == Closed
    ensures entry.Deliver? && entry.ev.TimerFired?
    ensures var clip := if entry.ev.timer == TUtterance || entry.ev.timer == TTurn then cfg.forcedStop else cfg.farewell;
            exists k :: 0 <= k < |steps| && (IsMark(steps[k], FAREWELL_MARK)
                                             || (steps[k].Deliver? && HasPlayed(entry.at, steps[k].at, |clip|)))
  {
    FarewellWaitBegins(cfg, v, entry);
    hide Next, Enabled, MarkEchoTimeout, HasPlayed;
    var clip := if entry.ev.timer == TUtterance || entry.ev.timer == TTurn then cfg.forcedStop else cfg.farewell;
    FarewellWaitKept(cfg, Next(cfg, v, entry), steps, entry.at, |clip|);
  }

  /** A response that starts playing arms its backstop behind all its frames. */
  lemma PlayoutBegins(cfg: Config, v: View, step: Step)
    requires Enabled(v, step)
    requires v.m.state != AwaitingResponsePlayout && Next(cfg, v, step).m.state == AwaitingResponsePlayout
    ensures step.Deliver? && step.ev.Response? && step.ev.ok
    ensures Next(cfg, v, step).m.live.markEcho == At(step.at + MarkEchoTimeout(|Flatten(step.ev.frames)|))
  {
    hide FlushTranscripts, MarkEchoTimeout, ClipFrames, SendMark, SendAudio, SendClear, AsClip, AsResponse, Flatten,
      TakeFrame, DispatchSTT, SendBedChunk, TrimSpace;
  }

  lemma PlayoutStep(cfg: Config, v: View, step: Step)
    requires Enabled(v, step) && v.m.state == AwaitingResponsePlayout
    ensures var w := Next(cfg, v, step);
            if IsMark(step, RESPONSE_MARK) || IsFiring(step, TMarkEcho) then w.m.state == Listening
            else w.m.state == AwaitingResponsePlayout && w.m.live.markEcho == v.m.live.markEcho
  {
    hide FlushTranscripts, TrimSpace, TakeFrame;
  }

  /** A run all of whose steps but the last stay in the playout. */
  ghost predicate PlaysOn(cfg: Config, v: View, steps: seq<Step>)
    requires Legal(cfg, v, steps)
    decreases |steps|
  {
    v.m.state == AwaitingResponsePlayout && (steps == [] || PlaysOn(cfg, Next(cfg, v, steps[0]), steps[1..]))
  }

  lemma {:induction false} PlayoutKept(cfg: Config, v: View, steps: seq<Step>)
    requires Legal(cfg, v, steps) && PlaysOn(cfg, v, steps)
    ensures var w := After(cfg, v, steps);
            w.m.state == AwaitingResponsePlayout && w.m.live.markEcho == v.m.live.markEcho
    decreases |steps|
  {
    hide Next, Enabled;
    if steps != [] {
      assert PlaysOn(cfg, Next(cfg, v, steps[0]), steps[1..]);
      PlayoutStep(cfg, v, steps[0]);
      var w := Next(cfg, v, steps[0]);
      assert w.m.state == AwaitingResponsePlayout;
      LeavesByMarkOrBackstop(cfg, v, steps[0]);
      PlayoutKept(cfg, w, steps[1..]);
    }
  }

  lemma LeavesByMarkOrBackstop(cfg: Config, v: View, step: Step)
    requires Enabled(v, step) && v.m.state == AwaitingResponsePlayout
    requires Next(cfg, v, step).m.state == AwaitingResponsePlayout
    ensures Next(cfg, v, step).m.live.markEcho == v.m.live.markEcho
  {
    PlayoutStep(cfg, v, step);
  }

  /**
   The session listens again after a response only on the response's own mark, or once the
   whole playing time of its frames has passed; nothing else leaves the playout.
   */
  lemma ResponseHasTimeToPlay(cfg: Config, v: View, entry: Step, steps: seq<Step>, exit: Step)
    requires Enabled(v, entry)
    requires v.m.state != AwaitingResponsePlayout && Next(cfg, v, entry).m.state == AwaitingResponsePlayout
    requires Legal(cfg, Next(cfg, v, entry), steps) && PlaysOn(cfg, Next(cfg, v, entry), steps)
    requires Enabled(After(cfg, Next(cfg, v, entry), steps), exit)
    requires Next(cfg, After(cfg, Next(cfg, v, entry), steps), exit).m.state != AwaitingResponsePlayout
    ensures entry.Deliver? && entry.ev.Response?
    ensures Next(cfg, After(cfg, Next(cfg, v, entry), steps), exit).m.state == Listening
    ensures IsMark(exit, RESPONSE_MARK)
            || (exit.Deliver? && HasPlayed(entry.at, exit.at, |Flatten(entry.ev.frames)|))
  {
    PlayoutBegins(cfg, v, entry);
    hide Next, MarkEchoTimeout, HasPlayed, Flatten;
    var w := After(cfg, Next(cfg, v, entry), steps);
    PlayoutKept(cfg, Next(cfg, v, entry), steps);
    PlayoutStep(cfg, w, exit);
    if IsFiring(exit, TMarkEcho) {
      FiredWhenDue(w, TMarkEcho, exit.at);
      EchoWaitCoversPlayout(entry.at, exit.at, |Flatten(entry.ev.frames)|);
    }
  }

  // ---- timers that outlive their state ------------------------------------------------------------

  /**
   A step that closes the session leaves the response and bed timers pending exactly when
   the response was awaited (a "stop" then cancels neither), and the idle and utterance
   timers exactly as they were.
   */
  lemma ClosingLeavesTimers(cfg: Config, v: View, step: Step)
    requires Inv(cfg, v) && Enabled(v, step)
    requires v.m.state != Closed && Next(cfg, v, step).m.state == Closed
    ensures var w := Next(cfg, v, step);
            && (w.m.live.response.At? <==> v.m.state == AwaitingResponse)
            && (w.m.live.bedTick.At? <==> v.m.state == AwaitingResponse)
            && w.m.live.idle == v.m.live.idle && w.m.live.utterance == v.m.live.utterance
            && w.m.live.turn == Off && w.m.live.markEcho == Off
  {
    UtteranceStep(cfg, v, step);
    IdleStep(cfg, v, step);
    ClosesByStopOrEcho(cfg, v, step);
    if v.m.state == AwaitingMarkEcho {
      EchoCloses(cfg, v, step);
    } else {
      StopCloses(cfg, v, step);
    }
    hide Next, Enabled, Inv;
  }

  /** Only a "stop" while the call is open, or the end of the farewell wait, closes a session. */
  lemma ClosesByStopOrEcho(cfg: Config, v: View, step: Step)
    requires Enabled(v, step) && v.m.state != Closed && Next(cfg, v, step).m.state == Closed
    ensures v.m.state == AwaitingMarkEcho
            || (step.Deliver? && step.ev.Control? && (InProgress(v.m.state) || v.m.state == AwaitingResponse))
  {
    hide FlushTranscripts, MarkEchoTimeout, ClipFrames, SendMark, SendAudio, SendClear, AsClip, AsResponse, Flatten,
      TakeFrame, DispatchSTT, SendBedChunk, TrimSpace;
  }

  lemma EchoCloses(cfg: Config, v: View, step: Step)
    requires Inv(cfg, v) && Enabled(v, step)
    requires v.m.state == AwaitingMarkEcho && Next(cfg, v, step).m.state == Closed
    ensures var w := Next(cfg, v, step).m.live;
            w.response == Off && w.bedTick == Off && w.turn == Off && w.markEcho == Off
    ensures !IsEnd(v, step) && !IsOnset(v, step) && !IsFiring(step, TIdle) && !IsFiring(step, TUtterance)
  {
    hide AudioConserved, RequestsMatch, TextConserved, TextSettled, BedInStep, CtlShape;
  }

  lemma StopCloses(cfg: Config, v: View, step: Step)
    requires Inv(cfg, v) && Enabled(v, step) && step.Deliver? && step.ev.Control?
    requires InProgress(v.m.state) || v.m.state == AwaitingResponse
    requires Next(cfg, v, step).m.state == Closed
    ensures var w := Next(cfg, v, step).m.live;
            && (w.response.At? <==> v.m.state == AwaitingResponse)
            && (w.bedTick.At? <==> v.m.state == AwaitingResponse)
            && w.turn == Off && w.markEcho == Off
  {
    hide FlushTranscripts, AudioConserved, RequestsMatch, TextConserved, TextSettled, BedInStep, CtlShape;
  }

  /**
   The farewell wait begins with the idle timer pending exactly when another timer's firing began
   it over a pending one.
   */
  lemma FarewellInheritsIdleTimer(cfg: Config, v: View, step: Step)
    requires Enabled(v, step)
    requires v.m.state != AwaitingMarkEcho && Next(cfg, v, step).m.state == AwaitingMarkEcho
    ensures step.Deliver? && step.ev.TimerFired?
    ensures Next(cfg, v, step).m.live.idle == if step.ev.timer == TIdle then Off else v.m.live.idle
  {
    FarewellWaitBegins(cfg, v, step);
    IdleStep(cfg, v, step);
    hide Next, Enabled;
  }

  // ---- and runs that show it ------------------------------------------------------------------------

  const SOUND: seq<Byte> := [0x7F]

  /** A first utterance heard and dispatched, its result still out. */
  lemma FirstPassOut(cfg: Config, at: nat) returns (v: View, steps: seq<Step>)
    ensures Legal(cfg, Started(cfg, at), steps) && After(cfg, Started(cfg, at), steps) == v
    ensures v.m.state == AwaitingFullResult && v.m.now == at && v.m.turnActive
    ensures v.m.live.turn == At(at + cfg.TurnMS()) && v.m.live.utterance == Off
    ensures v.audio.sttReqID == if cfg.sttWired then 1 else 0
  {
    var s0, s1, s2 := Deliver(Data(SOUND), at), Deliver(Vad(Speech), at), Deliver(Vad(EndOfUtterance), at);
    var v0 := Started(cfg, at);
    var v1 := Next(cfg, v0, s0);
    var v2 := Next(cfg, v1, s1);
    v := Next(cfg, v2, s2);
    hide Next, Enabled, Started;
    Prepend(cfg, v2, s2, [], v);
    Prepend(cfg, v1, s1, [s2] + [], v);
    Prepend(cfg, v0, s0, [s1] + ([s2] + []), v);
    steps := [s0] + ([s1] + ([s2] + []));
  }

  lemma SecondUtteranceStopped(cfg: Config, v: View, text: string)
    requires v.m.state == AwaitingFullResult && cfg.IsStopword(text)
    ensures var s1, s2 := Deliver(Vad(Speech), v.m.now), Deliver(Stt(cfg.callSID, v.audio.sttReqID, true, text), v.m.now);
            && Enabled(v, s1) && Enabled(Next(cfg, v, s1), s2)
            && var w := Next(cfg, Next(cfg, v, s1), s2);
               w.m.state == AwaitingResponse && w.m.live.utterance.At?
  {
  }

  /** A stopword heard during a second utterance leaves that utterance's cap pending in the wait for the response. */
  lemma UtteranceTimerOutlivesItsUtterance(cfg: Config, at: nat, text: string)
    requires cfg.IsStopword(text)
    ensures exists steps :: Legal(cfg, Started(cfg, at), steps)
              && After(cfg, Started(cfg, at), steps).m.state == AwaitingResponse
              && After(cfg, Started(cfg, at), steps).m.live.utterance.At?
  {
    var v, steps := FirstPassOut(cfg, at);
    var s1 := Deliver(Vad(Speech), at);
    var s2 := Deliver(Stt(cfg.callSID, v.audio.sttReqID, true, text), at);
    SecondUtteranceStopped(cfg, v, text);
    hide Next, Enabled, Started;
    var v1 := Next(cfg, v, s1);
    var v2 := Next(cfg, v1, s2);
    Prepend(cfg, v1, s2, [], v2);
    Prepend(cfg, v, s1, [s2] + [], v2);
    RunsJoin(cfg, Started(cfg, at), steps, [s1] + ([s2] + []));
  }

  /** A second utterance that ends at `end`, the turn's cap firing after it, and the farewell mark's echo. */
  lemma TurnCapOverIdle(cfg: Config, v: View, end: nat)
    requires v.m.state == AwaitingFullResult && v.m.turnActive && v.m.live.turn.At?
    requires v.m.now <= end <= v.m.live.turn.due
    ensures var due := v.m.live.turn.due;
            var s1, s2, s3 := Deliver(Vad(Speech), v.m.now), Deliver(Vad(EndOfUtterance), end),
                              Deliver(TimerFired(TTurn), due);
            var s4 := Deliver(Control(KIND_MARK, FAREWELL_MARK), due);
            && Enabled(v, s1) && Enabled(Next(cfg, v, s1), s2)
            && Enabled(Next(cfg, Next(cfg, v, s1), s2), s3)
            && var w := Next(cfg, Next(cfg, Next(cfg, v, s1), s2), s3);
            && w.m.state == AwaitingMarkEcho && w.m.live.idle.At?
            && Enabled(w, s4) && Next(cfg, w, s4).m.state == Closed && Next(cfg, w, s4).m.live.idle.At?
  {
    hide FlushTranscripts, MarkEchoTimeout, ClipFrames, SendMark, SendAudio, AsClip, DispatchSTT;
  }

  /**
   The idle timer can be pending in AwaitingMarkEcho, and then in Closed: the turn's cap fires
   while the caller is silent between utterances. Under the production bounds no timer is
   overdue at any step of this run.
   */
  lemma IdleTimerOutlivesTheCall(cfg: Config, at: nat)
    ensures exists steps :: Legal(cfg, Started(cfg, at), steps)
              && After(cfg, Started(cfg, at), steps).m.state == AwaitingMarkEcho
              && After(cfg, Started(cfg, at), steps).m.live.idle.At?
    ensures exists steps :: Legal(cfg, Started(cfg, at), steps)
              && After(cfg, Started(cfg, at), steps).m.state == Closed
              && After(cfg, Started(cfg, at), steps).m.live.idle.At?
  {
    var v, steps := FirstPassOut(cfg, at);
    var due := v.m.live.turn.due;
    var end := at + Min(cfg.UtteranceMS(), cfg.TurnMS());
    var s1, s2, s3 := Deliver(Vad(Speech), at), Deliver(Vad(EndOfUtterance), end), Deliver(TimerFired(TTurn), due);
    var s4 := Deliver(Control(KIND_MARK, FAREWELL_MARK), due);
    TurnCapOverIdle(cfg, v, end);
    hide Next, Enabled, Started;
    var v1 := Next(cfg, v, s1);
    var v2 := Next(cfg, v1, s2);
    var v3 := Next(cfg, v2, s3);
    var v4 := Next(cfg, v3, s4);
    Prepend(cfg, v2, s3, [], v3);
    Prepend(cfg, v1, s2, [s3] + [], v3);
    Prepend(cfg, v, s1, [s2] + ([s3] + []), v3);
    RunsJoin(cfg, Started(cfg, at), steps, [s1] + ([s2] + ([s3] + [])));
    Prepend(cfg, v3, s4, [], v4);
    Prepend(cfg, v2, s3, [s4] + [], v4);
    Prepend(cfg, v1, s2, [s3] + ([s4] + []), v4);
    Prepend(cfg, v, s1, [s2] + ([s3] + ([s4] + [])), v4);
    RunsJoin(cfg, Started(cfg, at), steps, [s1] + ([s2] + ([s3] + ([s4] + []))));
  }

  lemma {:induction false} RunsJoin(cfg: Config, v: View, a: seq<Step>, b: seq<Step>)
    requires Legal(cfg, v, a) && Legal(cfg, After(cfg, v, a), b)
    ensures Legal(cfg, v, a + b) && After(cfg, v, a + b) == After(cfg, After(cfg, v, a), b)
    decreases |a|
  {
    hide Next, Enabled;
    if a == [] {
      assert a + b == b;
    } else {
      RunsJoin(cfg, Next(cfg, v, a[0]), a[1..], b);
      assert (a + b)[1..] == a[1..] + b;
    }
  }

  lemma Prepend(cfg: Config, v: View, step: Step, rest: seq<Step>, last: View)
    requires Enabled(v, step) && Legal(cfg, Next(cfg, v, step), rest) && After(cfg, Next(cfg, v, step), rest) == last
    ensures Legal(cfg, v, [step] + rest) && After(cfg, v, [step] + rest) == last
  {
    hide Next, Enabled;
    assert ([step] + rest)[1..] == rest;
  }
}
