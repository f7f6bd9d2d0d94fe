/** What one input does to the state, the timers, the caller's audio and the planes, whichever handler takes it. */
module SessionSteps {
  import opened Common
  import opened CyclicClip
  import opened SessionModel
  import opened Telephony
  import opened SessionInvariants
  import opened SessionTurns
  import opened SessionTimers
  import opened SessionOutput

  // ---- the state ---------------------------------------------------------------------------------

  /** The states a call moves through: where each input leads from each of them. */
  function StateAfter(cfg: Config, v: View, ev: Event): SessionState {
    var st := v.m.state;
    match ev
    case Data(_) => if st == Idle then Listening else st
    case Control(kind, name) =>
      if kind == KIND_STOP && (InProgress(st) || st == AwaitingResponse) then Closed
      else if kind == KIND_MARK && name == RESPONSE_MARK && st == AwaitingResponsePlayout then Listening
      else if kind == KIND_MARK && name == FAREWELL_MARK && st == AwaitingMarkEcho then Closed
      else st
    case Vad(kind) =>
      if st != Listening then st
      else if kind == EndOfUtterance then AwaitingFullResult
      else if kind == TurnEnd then AwaitingResponse
      else st
    case Stt(_, _, _, _) =>
      if st != AwaitingFullResult || !Answers(cfg, v.audio, ev) then st
      else if TriggerOf(cfg, v, ev).Some? then AwaitingResponse
      else Listening
    case Response(ok, _) =>
      if st != AwaitingResponse then st else if ok then AwaitingResponsePlayout else Listening
    case TimerFired(t) =>
      match t
      case TResponse => if st == AwaitingResponse then AwaitingMarkEcho else st
      case TMarkEcho =>
        if st == AwaitingResponsePlayout then Listening else if st == AwaitingMarkEcho then Closed else st
      case TBedTick => st
      case _ => if InProgress(st) then AwaitingMarkEcho else st
  }

  lemma TimerMoves(cfg: Config, v: View, t: Timer, at: nat)
    requires Enabled(v, Deliver(TimerFired(t), at))
    ensures Next(cfg, v, Deliver(TimerFired(t), at)).m.state == StateAfter(cfg, v, TimerFired(t))
  {
    hide FlushTranscripts, SendBedChunk, MarkEchoTimeout, ClipFrames, SendMark, SendAudio, AsClip,
      HandleVAD, HandleSTTResult, HandleResponseReady, HandleDataFrame, HandlePlayoutEcho,
      HandleMarkEcho, HandleControlEvent;
    match t
    case TIdle =>
    case TMarkEcho =>
    case TUtterance =>
    case TResponse =>
    case TTurn =>
    case TBedTick =>
  }

  lemma ResultMoves(cfg: Config, v: View, ev: Event)
    requires ev.Stt? && Hearing(v.m.state)
    ensures HandleSTTResult(cfg, v, ev).m.state == StateAfter(cfg, v, ev)
  {
    hide TrimSpace, FlushTranscripts, Accept;
  }

  lemma InputMoves(cfg: Config, v: View, ev: Event)
    requires !ev.TimerFired? && !ev.Stt?
    ensures Handle(cfg, v, Lookup(v.m.state, SourceOf(ev)), ev).m.state == StateAfter(cfg, v, ev)
  {
    hide FlushTranscripts, MarkEchoTimeout, SendMark, SendAudio, SendClear, AsResponse, Flatten, TakeFrame,
      DispatchSTT, SendBedChunk, TerminateWithClip, HandleSTTResult, HandleBedTick, HandleResponseTimeout;
    match ev
    case Data(_) =>
    case Control(_, _) =>
    case Vad(_) =>
    case Response(_, _) =>
  }

  /** Every input moves the session exactly where the diagram says, and nothing else moves it. */
  lemma StatesMoveExactly(cfg: Config, v: View, step: Step)
    requires Enabled(v, step)
    ensures Next(cfg, v, step).m.state == if step.Deliver? then StateAfter(cfg, v, step.ev) else v.m.state
  {
    hide Handle, Lookup, StateAfter;
    match step
    case Deliver(ev, at) =>
      var a := v.(m := Arrive(v.m, ev, at));
      ArrivalUnseen(cfg, v, ev, at);
      match ev {
        case TimerFired(t) => TimerMoves(cfg, v, t, at);
        case Stt(_, _, _, _) =>
          if Hearing(v.m.state) {
            ResultMoves(cfg, a, ev);
            SttReaches(cfg, a, ev);
          } else {
            SttIgnored(cfg, a, ev);
            NotHearing(cfg, v, ev);
          }
        case _ => InputMoves(cfg, a, ev);
      }
    case _ =>
  }

  lemma NotHearing(cfg: Config, v: View, ev: Event)
    requires ev.Stt? && !Hearing(v.m.state)
    ensures StateAfter(cfg, v, ev) == v.m.state
  {
  }

  lemma ArrivalUnseen(cfg: Config, v: View, ev: Event, at: nat)
    ensures StateAfter(cfg, v.(m := Arrive(v.m, ev, at)), ev) == StateAfter(cfg, v, ev)
  {
  }

  // ---- the caller's audio ------------------------------------------------------------------------

  /** An end of utterance while no pass is out: the one input that hands the buffer over. */
  predicate HandsOver(v: View, step: Step) {
    step.Deliver? && step.ev == Vad(EndOfUtterance) && v.m.state == Listening
  }

  /** A frame the session takes. */
  predicate TakesFrame(v: View, step: Step) { step.Deliver? && step.ev.Data? && Hearing(v.m.state) }

  /** What is queued for the recognizer after a step: a new request if there is room for it, one fewer after a drain. */
  function QueueAfter(cfg: Config, v: View, step: Step): seq<STTRequest>
    requires Enabled(v, step)
  {
    var q := v.audio.sttQueue;
    if step.STTDrain? then q[1..]
    else if HandsOver(v, step) && cfg.sttWired && |q| < STT_DISPATCH_DEPTH
    then q + [STTRequest(v.audio.sttReqID + 1, v.audio.turnBuf)]
    else q
  }

  /** What is queued for the forwarder: a frame taken while there is no room is the one that is lost. */
  function ForwardAfter(v: View, step: Step): seq<seq<Byte>>
    requires Enabled(v, step)
  {
    var q := v.audio.forwardCh;
    if step.ForwardDrain? then q[1..]
    else if TakesFrame(v, step) && |q| < PLANE_DEPTH then q + [step.ev.frame]
    else q
  }

  /** The audio a step leaves, given what it hands over and takes. */
  ghost predicate AudioMoves(cfg: Config, v: View, step: Step, b: CallerAudio)
    requires Enabled(v, step)
  {
    var a := v.audio;
    && b.passes == a.passes + (if HandsOver(v, step) then [a.turnBuf] else [])
    && b.turnBuf == (if HandsOver(v, step) then [] else a.turnBuf + FrameOf(v, step))
    && b.sttReqID == a.sttReqID + (if HandsOver(v, step) && cfg.sttWired then 1 else 0)
    && b.sttQueue == QueueAfter(cfg, v, step)
    && b.forwardCh == ForwardAfter(v, step)
  }

  lemma TimerKeepsAudio(cfg: Config, v: View, t: Timer, at: nat)
    requires Enabled(v, Deliver(TimerFired(t), at))
    ensures Next(cfg, v, Deliver(TimerFired(t), at)).audio == v.audio
  {
    hide FlushTranscripts, SendBedChunk, MarkEchoTimeout, ClipFrames, SendMark, SendAudio, AsClip,
      HandleVAD, HandleSTTResult, HandleResponseReady, HandleDataFrame, HandlePlayoutEcho,
      HandleMarkEcho, HandleControlEvent;
    match t
    case TIdle =>
    case TMarkEcho =>
    case TUtterance =>
    case TResponse =>
    case TTurn =>
    case TBedTick =>
  }

  lemma ResultKeepsAudio(cfg: Config, v: View, ev: Event)
    requires ev.Stt?
    ensures HandleSTTResult(cfg, v, ev).audio == v.audio
  {
    hide TrimSpace, FlushTranscripts, Accept;
  }

  lemma InputAudio(cfg: Config, v: View, ev: Event)
    requires !ev.TimerFired?
    ensures AudioMoves(cfg, v, Deliver(ev, v.m.now), Handle(cfg, v, Lookup(v.m.state, SourceOf(ev)), ev).audio)
  {
    hide FlushTranscripts, MarkEchoTimeout, SendMark, SendAudio, SendClear, AsResponse, Flatten,
      SendBedChunk, TerminateWithClip, HandleSTTResult, HandleBedTick, HandleResponseTimeout;
    match ev
    case Data(_) =>
    case Control(_, _) =>
    case Vad(_) =>
    case Stt(_, _, _, _) => ResultKeepsAudio(cfg, v, ev);
    case Response(_, _) =>
  }

  /**
   Every step moves the caller's audio exactly so: handed over whole at an end of utterance in
   Listening, and only there.
   */
  lemma AudioMovesExactly(cfg: Config, v: View, step: Step)
    requires Enabled(v, step)
    ensures AudioMoves(cfg, v, step, Next(cfg, v, step).audio)
  {
    hide Handle, Lookup;
    match step
    case Deliver(ev, at) =>
      if ev.TimerFired? {
        TimerKeepsAudio(cfg, v, ev.timer, at);
      } else {
        InputAudio(cfg, v.(m := v.m.(now := at)), ev);
      }
    case _ =>
  }

  /** The utterances of a run: its audio, cut at every end of utterance that finds no pass out, the last still open. */
  ghost function Utterances(cfg: Config, v: View, steps: seq<Step>, open: seq<Byte>): seq<seq<Byte>>
    requires Legal(cfg, v, steps)
    decreases |steps|
  {
    if steps == [] then [open]
    else if HandsOver(v, steps[0]) then [open] + Utterances(cfg, Next(cfg, v, steps[0]), steps[1..], [])
    else Utterances(cfg, Next(cfg, v, steps[0]), steps[1..], open + FrameOf(v, steps[0]))
  }

  lemma {:induction false} PassesFollow(cfg: Config, v: View, steps: seq<Step>)
    requires Legal(cfg, v, steps)
    ensures var w := After(cfg, v, steps);
            w.audio.passes + [w.audio.turnBuf] == v.audio.passes + Utterances(cfg, v, steps, v.audio.turnBuf)
    decreases |steps|
  {
    hide Next, Enabled, HandsOver, FrameOf, QueueAfter, ForwardAfter;
    if steps != [] {
      var w := Next(cfg, v, steps[0]);
      AudioMovesExactly(cfg, v, steps[0]);
      PassesFollow(cfg, w, steps[1..]);
      if HandsOver(v, steps[0]) {
        Joined(v.audio.passes, [v.audio.turnBuf], Utterances(cfg, w, steps[1..], []));
      }
    }
  }

  /** Over any run of a call the passes are its utterances, one each, whole and in order, and the buffer is the open one. */
  lemma PassesAreUtterances(cfg: Config, at: nat, steps: seq<Step>)
    requires Legal(cfg, Started(cfg, at), steps)
    ensures var w := After(cfg, Started(cfg, at), steps);
            w.audio.passes + [w.audio.turnBuf] == Utterances(cfg, Started(cfg, at), steps, [])
  {
    PassesFollow(cfg, Started(cfg, at), steps);
    assert [] + Utterances(cfg, Started(cfg, at), steps, []) == Utterances(cfg, Started(cfg, at), steps, []);
  }

  // ---- from one pass to the next -------------------------------------------------------------------

  /** A run whose every step leaves the session in Listening. */
  ghost predicate ListensOn(cfg: Config, v: View, steps: seq<Step>)
    requires Legal(cfg, v, steps)
    decreases |steps|
  {
    steps == [] ||
    (Next(cfg, v, steps[0]).m.state == Listening && ListensOn(cfg, Next(cfg, v, steps[0]), steps[1..]))
  }

  lemma {:induction false} NothingPassedYet(cfg: Config, v: View, steps: seq<Step>)
    requires v.m.state == Listening && Legal(cfg, v, steps) && ListensOn(cfg, v, steps)
    ensures var w := After(cfg, v, steps);
            && w.m.state == Listening && w.audio.passes == v.audio.passes && w.audio.sttReqID == v.audio.sttReqID
            && w.audio.turnBuf == v.audio.turnBuf + AudioOf(cfg, v, steps)
    decreases |steps|
  {
    if steps != [] {
      StatesMoveExactly(cfg, v, steps[0]);
      AudioMovesExactly(cfg, v, steps[0]);
      hide Next, Enabled, FrameOf, QueueAfter, ForwardAfter;
      var w := Next(cfg, v, steps[0]);
      NothingPassedYet(cfg, w, steps[1..]);
      Joined(v.audio.turnBuf, FrameOf(v, steps[0]), AudioOf(cfg, w, steps[1..]));
    }
  }

  /**
   A plain answer to the pass that is out returns the session to Listening, and the next end of
   utterance hands over, under the next number, all the audio buffered since the last one.
   */
  lemma NextUtteranceIsPassed(cfg: Config, v: View, answer: Step, steps: seq<Step>, end: Step)
    requires Enabled(v, answer) && v.m.state == AwaitingFullResult
    requires answer.Deliver? && answer.ev.Stt? && Answers(cfg, v.audio, answer.ev)
    requires !cfg.IsStopword(answer.ev.text) && !v.m.turnEndPending
    requires var w := Next(cfg, v, answer);
             && Legal(cfg, w, steps) && ListensOn(cfg, w, steps)
             && Enabled(After(cfg, w, steps), end) && end.Deliver? && end.ev == Vad(EndOfUtterance)
    ensures var w := Next(cfg, v, answer);
            && w.m.state == Listening
            && var x, z := After(cfg, w, steps), Next(cfg, After(cfg, w, steps), end);
            && z.m.state == AwaitingFullResult && z.audio.turnBuf == []
            && z.audio.passes == v.audio.passes + [v.audio.turnBuf + AudioOf(cfg, w, steps)]
            && (cfg.sttWired ==>
                  z.audio.sttReqID == v.audio.sttReqID + 1
                  && (|x.audio.sttQueue| < STT_DISPATCH_DEPTH ==>
                        z.audio.sttQueue == x.audio.sttQueue
                                            + [STTRequest(z.audio.sttReqID, v.audio.turnBuf + AudioOf(cfg, w, steps))]))
  {
    StatesMoveExactly(cfg, v, answer);
    AudioMovesExactly(cfg, v, answer);
    hide Next, Enabled;
    var w := Next(cfg, v, answer);
    NothingPassedYet(cfg, w, steps);
    var x := After(cfg, w, steps);
    StatesMoveExactly(cfg, x, end);
    AudioMovesExactly(cfg, x, end);
  }

  // ---- the timers ----------------------------------------------------------------------------------

  /** A response handled while it is awaited. */
  predicate TakesResponse(v: View, step: Step) { step.Deliver? && step.ev.Response? && v.m.state == AwaitingResponse }

  predicate Completes(cfg: Config, v: View, step: Step) {
    step.Deliver? && TriggerOf(cfg, v, step.ev).Some?
  }

  /** The turn's cap: armed by the onset that opens the turn, stopped by what completes it. */
  function TurnCapAfter(cfg: Config, v: View, step: Step): Pending {
    if IsOnset(v, step) && !v.m.turnActive then At(step.at + cfg.TurnMS())
    else if Completes(cfg, v, step) || IsFiring(step, TTurn) then Off
    else v.m.live.turn
  }

  /** The response cap: armed whole as the wait begins, stopped by a response. */
  function ResponseCapAfter(cfg: Config, v: View, step: Step, w: View): Pending {
    if step.Deliver? && StartsWait(v, w) then At(step.at + cfg.ResponseMS())
    else if TakesResponse(v, step) || IsFiring(step, TResponse) then Off
    else v.m.live.response
  }

  /** The bed's tick: one interval after the wait begins and after every tick of the wait. */
  function BedTickAfter(v: View, step: Step, w: View): Pending {
    if step.Deliver? && StartsWait(v, w) then At(step.at + BED_TICK_MS)
    else if IsFiring(step, TBedTick) && v.m.state == AwaitingResponse then At(step.at + BED_TICK_MS)
    else if IsFiring(step, TBedTick) || TakesResponse(v, step) || (IsFiring(step, TResponse) && v.m.state == AwaitingResponse)
    then Off
    else v.m.live.bedTick
  }

  /** The echo's backstop: behind the playing time of what it waits for, and stopped when the wait is over. */
  function MarkEchoAfter(cfg: Config, v: View, step: Step, w: View): Pending {
    var clip := ClosesWith(cfg, v.m.state, step);
    if clip.Some? && step.Deliver? then At(step.at + MarkEchoTimeout(|clip.value|))
    else if TakesResponse(v, step) && step.ev.ok then At(step.at + MarkEchoTimeout(|Flatten(step.ev.frames)|))
    else if IsFiring(step, TMarkEcho) then Off
    else if (v.m.state == AwaitingResponsePlayout || v.m.state == AwaitingMarkEcho) && w.m.state != v.m.state then Off
    else v.m.live.markEcho
  }

  /** The two flags and the four timers that neither the caller's voice nor silence runs alone. */
  ghost predicate CapsMove(cfg: Config, v: View, step: Step, w: View) {
    && w.m.live.turn == TurnCapAfter(cfg, v, step)
    && w.m.live.response == ResponseCapAfter(cfg, v, step, w)
    && w.m.live.bedTick == BedTickAfter(v, step, w)
    && w.m.live.markEcho == MarkEchoAfter(cfg, v, step, w)
    && w.m.turnActive == (if IsOnset(v, step) then true else v.m.turnActive && !Completes(cfg, v, step))
    && w.m.turnEndPending == (if step.Deliver? && step.ev == Vad(TurnEnd) && v.m.state == AwaitingFullResult then true
                              else v.m.turnEndPending && !Completes(cfg, v, step))
  }

  /** What ending the call does to the machine, and what ending a turn to await its response does. */
  lemma EndingMachine(cfg: Config, v: View, trigger: Trigger, clip: seq<Byte>)
    ensures TerminateWithClip(cfg, CompleteTurn(v, trigger), clip).m ==
            v.m.(state := AwaitingMarkEcho, turnActive := false, turnEndPending := false,
                 live := v.m.live.(turn := Off, markEcho := At(v.m.now + MarkEchoTimeout(|clip|))))
  {
    hide FlushTranscripts, MarkEchoTimeout, ClipFrames, SendMark, SendAudio, AsClip;
  }

  lemma WaitingMachine(cfg: Config, v: View, trigger: Trigger)
    ensures EnterAwaitingResponse(cfg, CompleteTurn(v, trigger)).m ==
            v.m.(state := AwaitingResponse, turnActive := false, turnEndPending := false,
                 live := v.m.live.(idle := Off, turn := Off, response := At(v.m.now + cfg.ResponseMS()),
                                   bedTick := At(v.m.now + BED_TICK_MS)))
  {
    hide FlushTranscripts;
  }

  lemma TimerCaps(cfg: Config, v: View, t: Timer, at: nat)
    requires Enabled(v, Deliver(TimerFired(t), at))
    ensures CapsMove(cfg, v, Deliver(TimerFired(t), at), Next(cfg, v, Deliver(TimerFired(t), at)))
  {
    hide TerminateWithClip, CompleteTurn, SendBedChunk, MarkEchoTimeout, Flatten,
      HandleVAD, HandleSTTResult, HandleResponseReady, HandleDataFrame, HandlePlayoutEcho,
      HandleMarkEcho, HandleControlEvent;
    var a := v.(m := Arrive(v.m, TimerFired(t), at));
    match t
    case TIdle => EndingMachine(cfg, a, IdleTimeout, cfg.farewell);
    case TMarkEcho =>
    case TUtterance => EndingMachine(cfg, a, UtteranceCap, cfg.forcedStop);
    case TResponse => EndingMachine(cfg, a.(m := Cancel(a.m, TBedTick)), ResponseCap, cfg.farewell);
    case TTurn => EndingMachine(cfg, a, TurnCap, cfg.forcedStop);
    case TBedTick =>
  }

  lemma ResultCaps(cfg: Config, v: View, ev: Event)
    requires ev.Stt? && Hearing(v.m.state)
    ensures CapsMove(cfg, v, Deliver(ev, v.m.now), HandleSTTResult(cfg, v, ev))
  {
    hide TrimSpace, FlushTranscripts, Accept, MarkEchoTimeout;
  }

  lemma IgnoredCaps(cfg: Config, v: View, ev: Event)
    requires ev.Stt? && !Hearing(v.m.state)
    ensures CapsMove(cfg, v, Deliver(ev, v.m.now), v)
  {
  }

  lemma VoiceCaps(cfg: Config, v: View, ev: Event)
    requires ev.Vad?
    ensures CapsMove(cfg, v, Deliver(ev, v.m.now), Handle(cfg, v, Lookup(v.m.state, VADEvent), ev))
  {
    hide CompleteTurn, EnterAwaitingResponse, DispatchSTT, MarkEchoTimeout, Flatten;
    match ev.vad
    case Speech =>
    case Silence =>
    case TurnEnd => WaitingMachine(cfg, v, SilenceTurnEnd);
    case EndOfUtterance =>
  }

  lemma NotAStop(v: View, kind: string)
    requires kind != KIND_STOP
    ensures HandleControlEvent(v, kind) == v
  {
  }

  lemma StopMachine(v: View)
    ensures HandleControlEvent(v, KIND_STOP).m ==
            v.m.(state := Closed, turnActive := false, turnEndPending := false, live := v.m.live.(turn := Off))
  {
    hide FlushTranscripts;
  }

  lemma ControlCaps(cfg: Config, v: View, ev: Event)
    requires ev.Control?
    ensures CapsMove(cfg, v, Deliver(ev, v.m.now), Handle(cfg, v, Lookup(v.m.state, TwilioControl), ev))
  {
    hide CompleteTurn, MarkEchoTimeout, Flatten, HandleControlEvent;
    StopMachine(v);
    if ev.kind != KIND_STOP {
      assert HandleControlEvent(v, ev.kind) == v by { NotAStop(v, ev.kind); }
    }
  }

  lemma InputCaps(cfg: Config, v: View, ev: Event)
    requires !ev.TimerFired? && !ev.Stt? && !ev.Vad? && !ev.Control?
    ensures CapsMove(cfg, v, Deliver(ev, v.m.now), Handle(cfg, v, Lookup(v.m.state, SourceOf(ev)), ev))
  {
    hide FlushTranscripts, MarkEchoTimeout, SendMark, SendAudio, SendClear, AsResponse, Flatten, TakeFrame,
      SendBedChunk, TerminateWithClip, HandleSTTResult, HandleBedTick, HandleResponseTimeout, HandleVAD,
      HandleControlEvent, HandlePlayoutEcho, HandleMarkEcho;
    match ev
    case Data(_) =>
    case Response(_, _) =>
  }

  /** Every step moves the two turn flags and these four timers exactly so. */
  lemma CapsMoveExactly(cfg: Config, v: View, step: Step)
    requires Enabled(v, step)
    ensures CapsMove(cfg, v, step, Next(cfg, v, step))
  {
    hide Handle, Lookup, MarkEchoTimeout, Flatten;
    match step
    case Deliver(ev, at) =>
      var a := v.(m := v.m.(now := at));
      match ev {
        case TimerFired(t) => TimerCaps(cfg, v, t, at);
        case Stt(_, _, _, _) =>
          if Hearing(v.m.state) {
            SttReaches(cfg, a, ev);
            ResultCaps(cfg, a, ev);
          } else {
            SttIgnored(cfg, a, ev);
            IgnoredCaps(cfg, a, ev);
          }
        case Vad(_) => VoiceCaps(cfg, a, ev);
        case Control(_, _) => ControlCaps(cfg, a, ev);
        case _ => InputCaps(cfg, a, ev);
      }
    case _ =>
  }

  // ---- the wait for a response ---------------------------------------------------------------------

  /** A run whose every step leaves the response awaited. */
  ghost predicate WaitsOn(cfg: Config, v: View, steps: seq<Step>)
    requires Legal(cfg, v, steps)
    decreases |steps|
  {
    steps == [] ||
    (Next(cfg, v, steps[0]).m.state == AwaitingResponse && WaitsOn(cfg, Next(cfg, v, steps[0]), steps[1..]))
  }

  /** The ticks a run handles. */
  function Ticks(steps: seq<Step>): nat {
    if steps == [] then 0 else TickOf(steps[0]) + Ticks(steps[1..])
  }

  /** The bed audio on the data plane, in order. */
  function BedHeard(out: seq<Outbound>): seq<Byte> {
    if out == [] then []
    else
      var last := out[|out| - 1];
      BedHeard(out[..|out| - 1]) + if last.BedChunk? then last.bytes else []
  }

  /** What one step of a wait that goes on does: a tick sends the next chunk and sets the next tick, nothing else sends. */
  lemma WaitStep(cfg: Config, v: View, step: Step)
    requires Enabled(v, step) && v.m.state == AwaitingResponse && Next(cfg, v, step).m.state == AwaitingResponse
    ensures var w := Next(cfg, v, step);
            && w.m.live.response == v.m.live.response
            && w.out.audioOut == v.out.audioOut + (if IsFiring(step, TBedTick) && cfg.BedPlays()
                                                   then [BedChunk(Loop(cfg.thinking, v.out.bedOffset, BED_CHUNK_BYTES))] else [])
            && w.out.bedOffset == (if IsFiring(step, TBedTick) && cfg.BedPlays()
                                   then (v.out.bedOffset + BED_CHUNK_BYTES) % |cfg.thinking| else v.out.bedOffset)
  {
    hide FlushTranscripts, MarkEchoTimeout, SendMark, SendAudio, SendClear, AsClip, AsResponse, ClipFrames,
      Flatten, TakeFrame, DispatchSTT, TrimSpace, Loop;
  }

  lemma WaitBegins(cfg: Config, v: View, step: Step)
    requires Enabled(v, step) && StartsWait(v, Next(cfg, v, step))
    ensures step.Deliver? && (step.ev.Stt? || step.ev == Vad(TurnEnd))
    ensures var w := Next(cfg, v, step);
            w.out.bedOffset == 0 && w.m.live.response == At(step.at + cfg.ResponseMS())
            && w.m.live.bedTick == At(step.at + BED_TICK_MS) && w.m.live.idle == Off
  {
    OnlyTurnEndsAndResultsWait(cfg, v, step);
    CapsMoveExactly(cfg, v, step);
    IdleStep(cfg, v, step);
    StartsBed(cfg, v, step);
    hide Next, Enabled;
  }

  lemma StartsBed(cfg: Config, v: View, step: Step)
    requires Enabled(v, step) && step.Deliver? && (step.ev.Stt? || step.ev == Vad(TurnEnd))
    requires v.m.state != AwaitingResponse && Next(cfg, v, step).m.state == AwaitingResponse
    ensures Next(cfg, v, step).out.bedOffset == 0
  {
    hide TrimSpace, FlushTranscripts, Accept, DispatchSTT;
  }

  /** The next n chunks of a bed that has sent so many bytes. */
  function BedPart(cfg: Config, sent: nat, n: nat): seq<Byte> {
    if cfg.BedPlays() then Loop(cfg.thinking, sent, BED_CHUNK_BYTES * n) else []
  }

  function TickOf(step: Step): nat { if IsFiring(step, TBedTick) then 1 else 0 }

  predicate BedAt(cfg: Config, v: View, sent: nat) {
    cfg.BedPlays() ==> v.out.bedOffset == sent % |cfg.thinking|
  }

  lemma BedPartsJoin(cfg: Config, sent: nat, n: nat, m: nat)
    ensures BedPart(cfg, sent, n) + BedPart(cfg, sent + BED_CHUNK_BYTES * n, m) == BedPart(cfg, sent, n + m)
  {
    hide Loop;
    Distributes(BED_CHUNK_BYTES, n, m);
    if cfg.BedPlays() {
      LoopAppend(cfg.thinking, sent, BED_CHUNK_BYTES * n, BED_CHUNK_BYTES * m);
    }
  }

  lemma Distributes(k: nat, n: nat, m: nat)
    ensures k * n + k * m == k * (n + m)
  {
  }

  lemma OneMoreChunk(out: seq<Outbound>, chunk: seq<Byte>)
    ensures BedHeard(out + [BedChunk(chunk)]) == BedHeard(out) + chunk
  {
    assert (out + [BedChunk(chunk)])[..|out|] == out;
  }

  lemma NoBedPart(cfg: Config, sent: nat)
    ensures BedPart(cfg, sent, 0) == []
  {
  }

  /** So many chunks into a wait the caller has heard that much of the repeated clip, and the cap stands. */
  ghost predicate BedPlaying(cfg: Config, v: View, before: seq<Byte>, chunks: nat, cap: Pending) {
    && v.m.state == AwaitingResponse && v.m.live.response == cap
    && BedAt(cfg, v, BED_CHUNK_BYTES * chunks)
    && BedHeard(v.out.audioOut) == before + BedPart(cfg, 0, chunks)
  }

  lemma BedStep(cfg: Config, v: View, step: Step, before: seq<Byte>, chunks: nat, cap: Pending)
    requires Enabled(v, step) && Next(cfg, v, step).m.state == AwaitingResponse
    requires BedPlaying(cfg, v, before, chunks, cap)
    ensures BedPlaying(cfg, Next(cfg, v, step), before, chunks + TickOf(step), cap)
  {
    WaitStep(cfg, v, step);
    hide Next, Enabled, IsFiring, BedHeard, Loop;
    if TickOf(step) == 1 {
      ChunkPlays(cfg, v, Next(cfg, v, step), before, chunks);
    }
  }

  lemma ChunkPlays(cfg: Config, v: View, w: View, before: seq<Byte>, chunks: nat)
    requires BedAt(cfg, v, BED_CHUNK_BYTES * chunks)
    requires BedHeard(v.out.audioOut) == before + BedPart(cfg, 0, chunks)
    requires w.out.audioOut == v.out.audioOut + (if cfg.BedPlays()
                                                 then [BedChunk(Loop(cfg.thinking, v.out.bedOffset, BED_CHUNK_BYTES))] else [])
    requires cfg.BedPlays() ==> w.out.bedOffset == (v.out.bedOffset + BED_CHUNK_BYTES) % |cfg.thinking|
    ensures BedAt(cfg, w, BED_CHUNK_BYTES * (chunks + 1))
    ensures BedHeard(w.out.audioOut) == before + BedPart(cfg, 0, chunks + 1)
  {
    hide BedHeard, Loop;
    var sent := BED_CHUNK_BYTES * chunks;
    BedPartsJoin(cfg, 0, chunks, 1);
    assert BedPart(cfg, sent, 1) == if cfg.BedPlays() then Loop(cfg.thinking, sent, BED_CHUNK_BYTES) else [];
    if cfg.BedPlays() {
      ModShift(sent, BED_CHUNK_BYTES, |cfg.thinking|);
      LoopReduced(cfg.thinking, sent, BED_CHUNK_BYTES);
      OneMoreChunk(v.out.audioOut, Loop(cfg.thinking, v.out.bedOffset, BED_CHUNK_BYTES));
      Joined(before, BedPart(cfg, 0, chunks), BedPart(cfg, sent, 1));
    } else {
      assert w.out.audioOut == v.out.audioOut;
    }
  }

  lemma {:induction false} WaitKept(cfg: Config, v: View, steps: seq<Step>, before: seq<Byte>, chunks: nat, cap: Pending)
    requires Legal(cfg, v, steps) && WaitsOn(cfg, v, steps) && BedPlaying(cfg, v, before, chunks, cap)
    ensures BedPlaying(cfg, After(cfg, v, steps), before, chunks + Ticks(steps), cap)
    decreases |steps|
  {
    if steps != [] {
      hide Next, Enabled, BedPlaying, TickOf;
      BedStep(cfg, v, steps[0], before, chunks, cap);
      WaitKept(cfg, Next(cfg, v, steps[0]), steps[1..], before, chunks + TickOf(steps[0]), cap);
    }
  }

  lemma WaitOpens(cfg: Config, v: View, entry: Step)
    requires Enabled(v, entry) && StartsWait(v, Next(cfg, v, entry))
    ensures entry.Deliver?
    ensures var w := Next(cfg, v, entry);
            BedPlaying(cfg, w, BedHeard(w.out.audioOut), 0, At(entry.at + cfg.ResponseMS()))
  {
    WaitBegins(cfg, v, entry);
    NoBedPart(cfg, 0);
    hide Next, Enabled, BedHeard, BedPart;
  }

  /**
   Over any run of one wait its cap keeps the deadline set as the wait began, and the caller has
   heard as much of the thinking clip, repeated from its head, as ticks have been handled.
   */
  lemma WaitPlaysTheBed(cfg: Config, v: View, entry: Step, steps: seq<Step>)
    requires Enabled(v, entry) && StartsWait(v, Next(cfg, v, entry))
    requires Legal(cfg, Next(cfg, v, entry), steps) && WaitsOn(cfg, Next(cfg, v, entry), steps)
    ensures entry.Deliver?
    ensures var w, z := Next(cfg, v, entry), After(cfg, Next(cfg, v, entry), steps);
            && z.m.live.response == At(entry.at + cfg.ResponseMS())
            && BedHeard(z.out.audioOut) == BedHeard(w.out.audioOut) + BedPart(cfg, 0, Ticks(steps))
  {
    hide Next, Enabled, BedHeard, BedPart, BedAt, Legal, After, WaitsOn, StartsWait, Ticks;
    WaitOpens(cfg, v, entry);
    var w := Next(cfg, v, entry);
    var cap := At(entry.at + cfg.ResponseMS());
    WaitKept(cfg, w, steps, BedHeard(w.out.audioOut), 0, cap);
    assert 0 + Ticks(steps) == Ticks(steps);
  }

  // ---- the control plane ---------------------------------------------------------------------------

  /**
   What a step writes on the control plane: a clear for every response, a mark behind every clip
   and every response played.
   */
  function ControlsFor(cfg: Config, v: View, step: Step): seq<CtlOut> {
    if ClosesWith(cfg, v.m.state, step).Some? then [Mark(FAREWELL_MARK)]
    else if !TakesResponse(v, step) then []
    else if step.ev.ok then [Clear, Mark(RESPONSE_MARK)]
    else [Clear]
  }

  /** Whether a step tears the transport down: the farewell's own echo or its backstop. */
  predicate TearsDown(v: View, step: Step) {
    v.m.state == AwaitingMarkEcho && (IsMark(step, FAREWELL_MARK) || IsFiring(step, TMarkEcho))
  }

  ghost predicate WritesAfter(cfg: Config, v: View, step: Step, w: Output) {
    && w.ctlOut == v.out.ctlOut + (if cfg.ctlWired then ControlsFor(cfg, v, step) else [])
    && w.transportCloses == v.out.transportCloses + (if TearsDown(v, step) then 1 else 0)
  }

  lemma TimerWrites(cfg: Config, v: View, t: Timer, at: nat)
    requires Enabled(v, Deliver(TimerFired(t), at))
    ensures WritesAfter(cfg, v, Deliver(TimerFired(t), at), Next(cfg, v, Deliver(TimerFired(t), at)).out)
  {
    hide FlushTranscripts, MarkEchoTimeout, ClipFrames, AsClip, Loop,
      HandleVAD, HandleSTTResult, HandleResponseReady, HandleDataFrame, HandlePlayoutEcho,
      HandleMarkEcho, HandleControlEvent;
    match t
    case TIdle =>
    case TMarkEcho =>
    case TUtterance =>
    case TResponse =>
    case TTurn =>
    case TBedTick =>
  }

  lemma InputWrites(cfg: Config, v: View, ev: Event)
    requires !ev.TimerFired?
    ensures WritesAfter(cfg, v, Deliver(ev, v.m.now), Handle(cfg, v, Lookup(v.m.state, SourceOf(ev)), ev).out)
  {
    hide FlushTranscripts, MarkEchoTimeout, AsResponse, Flatten, TakeFrame, TrimSpace, DispatchSTT,
      TerminateWithClip, HandleBedTick, HandleResponseTimeout;
    match ev
    case Data(_) =>
    case Control(_, _) =>
    case Vad(_) =>
    case Stt(_, _, _, _) =>
    case Response(_, _) =>
  }

  /**
   Every step writes the controls its input calls for, in order, and tears the transport down on
   the farewell's echo alone.
   */
  lemma ControlsWrittenExactly(cfg: Config, v: View, step: Step)
    requires Enabled(v, step)
    ensures WritesAfter(cfg, v, step, Next(cfg, v, step).out)
  {
    hide Handle, Lookup;
    match step
    case Deliver(ev, at) =>
      if ev.TimerFired? {
        TimerWrites(cfg, v, ev.timer, at);
      } else {
        InputWrites(cfg, v.(m := v.m.(now := at)), ev);
      }
    case _ =>
  }
}
