/** What every reachable session satisfies, and what one step can and cannot change. */
module SessionInvariants {
  import opened Common
  import opened CyclicClip
  import opened SessionModel
  import opened Telephony

  /** Which timers can be pending in which state, and what must be pending to move on. */
  ghost predicate TimersFit(m: Machine) {
    && m.state != Terminating
    && (m.turnActive <==> m.live.turn.At?)
    && (m.turnActive ==> m.state == Listening || m.state == AwaitingFullResult)
    && (m.turnEndPending ==> m.state == AwaitingFullResult)
    && (m.live.idle.At? ==> m.state != AwaitingResponse && m.state != AwaitingResponsePlayout)
    && (m.live.response.At? ==> m.state == AwaitingResponse || m.state == Closed)
    && (m.live.bedTick.At? ==> m.state == AwaitingResponse || m.state == Closed)
    && (m.live.markEcho.At? ==> m.state == AwaitingResponsePlayout || m.state == AwaitingMarkEcho)
    && HasDriver(m)
  }

  /** A pending timer whose firing leaves the state (and, for the bed, keeps the wait paced). */
  ghost predicate HasDriver(m: Machine) {
    match m.state
    case AwaitingResponse => m.live.response.At? && m.live.bedTick.At?
    case AwaitingResponsePlayout => m.live.markEcho.At?
    case AwaitingMarkEcho => m.live.markEcho.At?
    case Terminating => false
    case Closed => true
    case _ => m.live.idle.At? || m.live.utterance.At?
  }

  function TurnParts(turns: seq<Turn>): seq<seq<string>> {
    seq(|turns|, i requires 0 <= i < |turns| => turns[i].parts)
  }

  /** Dispatched passes followed by the buffer are exactly the audio taken, in order. */
  ghost predicate AudioConserved(a: CallerAudio) {
    Flatten(a.passes) + a.turnBuf == a.taken
  }

  /** Completed turns followed by the open one are exactly the accepted text, in order. */
  ghost predicate TextConserved(x: CallerText) {
    Flatten(TurnParts(x.turns)) + x.turnTranscripts == x.accepted
  }

  ghost predicate TextSettled(v: View) {
    v.m.state == AwaitingMarkEcho || v.m.state == Closed ==> v.text.turnTranscripts == []
  }

  /** During a wait the bed has played a prefix of the endlessly repeated clip. */
  ghost predicate BedInStep(cfg: Config, o: Output) {
    if cfg.BedPlays()
    then o.bedOffset == |o.bedSent| % |cfg.thinking| && o.bedSent == Loop(cfg.thinking, 0, |o.bedSent|)
    else o.bedSent == []
  }

  /** Every queued request carries the audio of the pass it is numbered after. */
  ghost predicate RequestsMatch(cfg: Config, a: CallerAudio) {
    && a.sttReqID == (if cfg.sttWired then |a.passes| else 0)
    && |a.sttQueue| <= STT_DISPATCH_DEPTH && |a.forwardCh| <= PLANE_DEPTH
    && (forall i :: 0 <= i < |a.sttQueue| ==>
          1 <= a.sttQueue[i].requestID <= a.sttReqID
          && a.sttQueue[i].requestID <= |a.passes|
          && a.sttQueue[i].audio == a.passes[a.sttQueue[i].requestID - 1])
    && (forall i, j :: 0 <= i < j < |a.sttQueue| ==> a.sttQueue[i].requestID < a.sttQueue[j].requestID)
  }

  /** Clears, each optionally followed by the mark of the response it made room for. */
  ghost predicate Rounds(ctl: seq<CtlOut>) {
    if ctl == [] then true
    else
      var front, last := ctl[..|ctl| - 1], ctl[|ctl| - 1];
      Rounds(front) && (last == Clear || (last == Mark(RESPONSE_MARK) && front != [] && front[|front| - 1] == Clear))
  }

  /** The farewell mark is written at most once, and nothing follows it. */
  ghost predicate CtlShape(v: View) {
    var ctl := v.out.ctlOut;
    Rounds(ctl) ||
    ((v.m.state == AwaitingMarkEcho || v.m.state == Closed) &&
     ctl != [] && ctl[|ctl| - 1] == Mark(FAREWELL_MARK) && Rounds(ctl[..|ctl| - 1]))
  }

  ghost predicate Inv(cfg: Config, v: View) {
    && TimersFit(v.m)
    && AudioConserved(v.audio) && RequestsMatch(cfg, v.audio)
    && TextConserved(v.text) && TextSettled(v)
    && (v.m.state == AwaitingResponse ==> BedInStep(cfg, v.out))
    && CtlShape(v)
    && v.out.transportCloses <= (if v.m.state == Closed then 1 else 0)
  }

  // ---- preservation, handler by handler ----------------------------------------------------

  lemma FlushKeepsText(x: CallerText, trigger: Trigger)
    requires TextConserved(x)
    ensures TextConserved(FlushTranscripts(x, trigger))
    ensures FlushTranscripts(x, trigger).turnTranscripts == []
  {
    var y := FlushTranscripts(x, trigger);
    if x.turnTranscripts != [] {
      assert TurnParts(y.turns) == TurnParts(x.turns) + [x.turnTranscripts];
      FlattenAppend(TurnParts(x.turns), x.turnTranscripts);
    }
  }

  lemma RoundsExtend(ctl: seq<CtlOut>)
    requires Rounds(ctl)
    ensures Rounds(ctl + [Clear]) && Rounds(ctl + [Clear] + [Mark(RESPONSE_MARK)])
  {
    assert (ctl + [Clear])[..|ctl|] == ctl;
    var cleared := ctl + [Clear];
    assert (cleared + [Mark(RESPONSE_MARK)])[..|cleared|] == cleared;
  }

  lemma BedChunkKeepsStep(cfg: Config, o: Output)
    requires BedInStep(cfg, o)
    ensures BedInStep(cfg, SendBedChunk(cfg, o))
  {
    if cfg.BedPlays() {
      var n := |o.bedSent|;
      LoopReduced(cfg.thinking, n, BED_CHUNK_BYTES);
      LoopAppend(cfg.thinking, 0, n, BED_CHUNK_BYTES);
      ModShift(n, BED_CHUNK_BYTES, |cfg.thinking|);
    }
  }

  lemma DataKeeps(cfg: Config, v: View, frame: seq<Byte>)
    requires Inv(cfg, v) && v.m.state != AwaitingMarkEcho && v.m.state != Closed
    ensures Inv(cfg, HandleDataFrame(v, frame))
  {
    assert Flatten(v.audio.passes) + (v.audio.turnBuf + frame) == v.audio.taken + frame;
  }

  lemma ControlKeeps(cfg: Config, v: View, kind: string)
    requires Inv(cfg, v) && (InProgress(v.m.state) || v.m.state == AwaitingResponse)
    ensures Inv(cfg, HandleControlEvent(v, kind))
  {
    FlushKeepsText(v.text, CallEnd);
  }

  lemma DispatchKeeps(cfg: Config, a: CallerAudio)
    requires AudioConserved(a) && RequestsMatch(cfg, a)
    ensures var b := DispatchSTT(cfg, a).(passes := a.passes + [a.turnBuf], turnBuf := []);
            AudioConserved(b) && RequestsMatch(cfg, b)
  {
    FlattenAppend(a.passes, a.turnBuf);
  }

  lemma VADKeeps(cfg: Config, v: View, kind: VoiceKind)
    requires Inv(cfg, v) && (v.m.state == Listening || v.m.state == AwaitingFullResult)
    ensures Inv(cfg, HandleVAD(cfg, v, kind))
  {
    hide AudioConserved, RequestsMatch, DispatchSTT, TextConserved, FlushTranscripts, Rounds;
    FlushKeepsText(v.text, SilenceTurnEnd);
    DispatchKeeps(cfg, v.audio);
  }

  lemma STTKeeps(cfg: Config, v: View, ev: Event)
    requires Inv(cfg, v) && ev.Stt? && v.m.state != AwaitingMarkEcho && v.m.state != Closed
    ensures Inv(cfg, HandleSTTResult(cfg, v, ev))
  {
    var heard := Accept(v.text, TrimSpace(ev.text));
    assert TextConserved(heard);
    hide AudioConserved, RequestsMatch, TextConserved, FlushTranscripts, Accept, TrimSpace, Rounds;
    FlushKeepsText(heard, SilenceTurnEnd);
    FlushKeepsText(v.text, Stopword);
  }

  lemma ResponseKeeps(cfg: Config, v: View, ev: Event)
    requires Inv(cfg, v) && ev.Response? && v.m.state == AwaitingResponse
    ensures Inv(cfg, HandleResponseReady(cfg, v, ev))
  {
    hide AudioConserved, RequestsMatch, TextConserved, MarkEchoTimeout, BedInStep, Rounds;
    RoundsExtend(v.out.ctlOut);
  }

  lemma EchoKeeps(cfg: Config, v: View, ev: Event)
    requires Inv(cfg, v) && ev.Control?
    ensures v.m.state == AwaitingResponsePlayout ==> Inv(cfg, HandlePlayoutEcho(cfg, v, ev))
    ensures v.m.state == AwaitingMarkEcho ==> Inv(cfg, HandleMarkEcho(v, ev))
  {
    hide AudioConserved, RequestsMatch, TextConserved, Rounds;
  }

  /** Everything the invariant says except about the machine and the control log. */
  ghost predicate Ledgers(cfg: Config, v: View) {
    && AudioConserved(v.audio) && RequestsMatch(cfg, v.audio)
    && TextConserved(v.text)
    && v.out.transportCloses == 0
  }

  lemma TerminateKeeps(cfg: Config, v: View, trigger: Trigger, clip: seq<Byte>)
    requires Ledgers(cfg, v) && Rounds(v.out.ctlOut)
    requires v.m.live.response.Off? && v.m.live.bedTick.Off?
    ensures Inv(cfg, TerminateWithClip(cfg, CompleteTurn(v, trigger), clip))
  {
    hide AudioConserved, RequestsMatch, TextConserved, FlushTranscripts, MarkEchoTimeout, ClipFrames;
    FlushKeepsText(v.text, trigger);
    assert (v.out.ctlOut + [Mark(FAREWELL_MARK)])[..|v.out.ctlOut|] == v.out.ctlOut;
  }

  lemma TimerKeeps(cfg: Config, v: View, t: Timer, at: nat)
    requires Inv(cfg, v) && Enabled(v, Deliver(TimerFired(t), at))
    ensures Inv(cfg, Next(cfg, v, Deliver(TimerFired(t), at)))
  {
    hide AudioConserved, RequestsMatch, TextConserved, FlushTranscripts, CompleteTurn, TerminateWithClip,
      SendBedChunk, BedInStep, Rounds, HandleVAD, HandleSTTResult, HandleResponseReady, HandleDataFrame,
      HandlePlayoutEcho, HandleMarkEcho, HandleControlEvent;
    var a := v.(m := Arrive(v.m, TimerFired(t), at));
    match t
    case TIdle =>
      if InProgress(v.m.state) { TerminateKeeps(cfg, a, IdleTimeout, cfg.farewell); }
    case TUtterance =>
      if InProgress(v.m.state) { TerminateKeeps(cfg, a, UtteranceCap, cfg.forcedStop); }
    case TTurn =>
      if InProgress(v.m.state) { TerminateKeeps(cfg, a, TurnCap, cfg.forcedStop); }
    case TResponse =>
      if v.m.state == AwaitingResponse {
        TerminateKeeps(cfg, a.(m := Cancel(a.m, TBedTick)), ResponseCap, cfg.farewell);
      }
    case TBedTick =>
      if v.m.state == AwaitingResponse {
        BedChunkKeepsStep(cfg, v.out);
        BedWritesNoControl(cfg, v.out);
      }
    case TMarkEcho =>
  }

  lemma BedWritesNoControl(cfg: Config, o: Output)
    ensures SendBedChunk(cfg, o).ctlOut == o.ctlOut
    ensures SendBedChunk(cfg, o).transportCloses == o.transportCloses
  {
  }

  lemma ClockKeeps(cfg: Config, v: View, at: nat)
    requires Inv(cfg, v)
    ensures Inv(cfg, v.(m := v.m.(now := at)))
  {
  }

  lemma InputKeeps(cfg: Config, v: View, ev: Event)
    requires Inv(cfg, v) && !ev.TimerFired?
    ensures Inv(cfg, Handle(cfg, v, Lookup(v.m.state, SourceOf(ev)), ev))
  {
    hide Inv, CompleteTurn, TerminateWithClip, HandleVAD, HandleSTTResult, HandleResponseReady,
      HandleDataFrame, HandlePlayoutEcho, HandleMarkEcho, HandleControlEvent, HandleBedTick,
      HandleResponseTimeout;
    match Lookup(v.m.state, SourceOf(ev))
    case DataFrame => DataKeeps(cfg, v, ev.frame);
    case ControlEvent => ControlKeeps(cfg, v, ev.kind);
    case ListeningVAD => VADKeeps(cfg, v, ev.vad);
    case AwaitingFullResultVAD => VADKeeps(cfg, v, ev.vad);
    case SttResult => STTKeeps(cfg, v, ev);
    case ResponseReadyH => ResponseKeeps(cfg, v, ev);
    case ResponsePlayoutEcho => EchoKeeps(cfg, v, ev);
    case MarkEchoControl => EchoKeeps(cfg, v, ev);
    case _ =>
  }

  lemma DrainKeeps(cfg: Config, v: View, step: Step)
    requires Inv(cfg, v) && Enabled(v, step) && !step.Deliver?
    ensures Inv(cfg, Next(cfg, v, step))
  {
    hide TextConserved, Rounds, BedInStep, Handle;
  }

  lemma InvPreserved(cfg: Config, v: View, step: Step)
    requires Inv(cfg, v) && Enabled(v, step)
    ensures Inv(cfg, Next(cfg, v, step))
  {
    hide Inv, Handle, Lookup;
    match step
    case Deliver(ev, at) =>
      if ev.TimerFired? {
        TimerKeeps(cfg, v, ev.timer, at);
      } else {
        ClockKeeps(cfg, v, at);
        InputKeeps(cfg, v.(m := v.m.(now := at)), ev);
      }
    case _ => DrainKeeps(cfg, v, step);
  }

  lemma StartedFits(cfg: Config, at: nat)
    ensures Inv(cfg, Started(cfg, at))
  {
  }

  // ---- what a run takes in -----------------------------------------------------------------

  /** The states that take the caller's audio and its transcripts. */
  predicate Hearing(st: SessionState) {
    InProgress(st) || st == AwaitingResponse || st == AwaitingResponsePlayout
  }

  /** An STT result this session is waiting for: its own call, its latest request, a full pass. */
  predicate Answers(cfg: Config, a: CallerAudio, ev: Event)
    requires ev.Stt?
  {
    ev.sessionID == cfg.callSID && ev.requestID == a.sttReqID && ev.fullPass
  }

  /** The audio one step takes in. */
  function FrameOf(v: View, step: Step): seq<Byte> {
    if step.Deliver? && step.ev.Data? && Hearing(v.m.state) then step.ev.frame else []
  }

  /** The text one step takes in. */
  function SaidIn(cfg: Config, v: View, step: Step): seq<string> {
    if step.Deliver? && step.ev.Stt? && Hearing(v.m.state) && Answers(cfg, v.audio, step.ev)
       && !cfg.IsStopword(step.ev.text)
    then [TrimSpace(step.ev.text)] else []
  }

  /** The frames a run delivers in states that take audio, put together. */
  ghost function AudioOf(cfg: Config, v: View, steps: seq<Step>): seq<Byte>
    requires Legal(cfg, v, steps)
    decreases |steps|
  {
    if steps == [] then [] else FrameOf(v, steps[0]) + AudioOf(cfg, Next(cfg, v, steps[0]), steps[1..])
  }

  /** The trimmed transcripts a run accepts, stopwords apart. */
  ghost function TextOf(cfg: Config, v: View, steps: seq<Step>): seq<string>
    requires Legal(cfg, v, steps)
    decreases |steps|
  {
    if steps == [] then [] else SaidIn(cfg, v, steps[0]) + TextOf(cfg, Next(cfg, v, steps[0]), steps[1..])
  }

  lemma TimerTakesNothing(cfg: Config, v: View, t: Timer, at: nat)
    requires Enabled(v, Deliver(TimerFired(t), at))
    ensures var n := Next(cfg, v, Deliver(TimerFired(t), at));
            n.audio.taken == v.audio.taken && n.text.accepted == v.text.accepted
  {
    hide SendBedChunk, MarkEchoTimeout, ClipFrames, SendMark, SendAudio, AsClip, HandleVAD, HandleSTTResult,
      HandleResponseReady, HandleDataFrame, HandlePlayoutEcho, HandleMarkEcho, HandleControlEvent;
    match t case _ =>
  }

  lemma InputTakes(cfg: Config, v: View, ev: Event)
    requires !ev.TimerFired?
    ensures var n := Handle(cfg, v, Lookup(v.m.state, SourceOf(ev)), ev);
            n.audio.taken == v.audio.taken + FrameOf(v, Deliver(ev, v.m.now))
            && n.text.accepted == v.text.accepted + SaidIn(cfg, v, Deliver(ev, v.m.now))
  {
    hide TrimSpace, MarkEchoTimeout, SendMark, SendAudio, SendClear, AsResponse, Flatten, SendBedChunk,
      TerminateWithClip, HandleBedTick, HandleResponseTimeout;
    match ev
    case Data(_) =>
    case Control(_, _) =>
    case Vad(_) =>
    case Stt(_, _, _, _) =>
    case Response(_, _) =>
  }

  lemma StepTakes(cfg: Config, v: View, step: Step)
    requires Enabled(v, step)
    ensures var n := Next(cfg, v, step);
            n.audio.taken == v.audio.taken + FrameOf(v, step)
            && n.text.accepted == v.text.accepted + SaidIn(cfg, v, step)
  {
    hide Handle, Lookup, TrimSpace;
    match step
    case Deliver(ev, at) =>
      if ev.TimerFired? {
        TimerTakesNothing(cfg, v, ev.timer, at);
      } else {
        InputTakes(cfg, v.(m := v.m.(now := at)), ev);
      }
    case _ =>
  }

  lemma {:induction false} RunTakes(cfg: Config, v: View, steps: seq<Step>)
    requires Legal(cfg, v, steps)
    ensures After(cfg, v, steps).audio.taken == v.audio.taken + AudioOf(cfg, v, steps)
    ensures After(cfg, v, steps).text.accepted == v.text.accepted + TextOf(cfg, v, steps)
    decreases |steps|
  {
    hide Next, Enabled, FrameOf, SaidIn;
    if steps != [] {
      var w := Next(cfg, v, steps[0]);
      StepTakes(cfg, v, steps[0]);
      RunTakes(cfg, w, steps[1..]);
      Joined(v.audio.taken, FrameOf(v, steps[0]), AudioOf(cfg, w, steps[1..]));
      Joined(v.text.accepted, SaidIn(cfg, v, steps[0]), TextOf(cfg, w, steps[1..]));
    }
  }

  // ---- whole runs --------------------------------------------------------------------------

  /** Every legal run, from any state that satisfies the invariant, keeps it. */
  lemma {:induction false} InvThroughout(cfg: Config, v: View, steps: seq<Step>)
    requires Inv(cfg, v) && Legal(cfg, v, steps)
    ensures Inv(cfg, After(cfg, v, steps))
    decreases |steps|
  {
    if steps != [] {
      InvPreserved(cfg, v, steps[0]);
      InvThroughout(cfg, Next(cfg, v, steps[0]), steps[1..]);
    }
  }

  /** The reachable sessions: what a started call looks like after any run at all. */
  lemma ReachableSession(cfg: Config, at: nat, steps: seq<Step>)
    requires Legal(cfg, Started(cfg, at), steps)
    ensures Inv(cfg, After(cfg, Started(cfg, at), steps))
  {
    StartedFits(cfg, at);
    InvThroughout(cfg, Started(cfg, at), steps);
  }

  /**
   No audio or text is lost or sent twice: over any run of a call the dispatched passes and
   then the buffer are the frames delivered, and the completed turns and then the open one
   are the transcripts accepted.
   */
  lemma NothingLostNothingRepeated(cfg: Config, at: nat, steps: seq<Step>)
    requires Legal(cfg, Started(cfg, at), steps)
    ensures var v := After(cfg, Started(cfg, at), steps);
            && Flatten(v.audio.passes) + v.audio.turnBuf == AudioOf(cfg, Started(cfg, at), steps)
            && Flatten(TurnParts(v.text.turns)) + v.text.turnTranscripts == TextOf(cfg, Started(cfg, at), steps)
            && (v.m.state == AwaitingMarkEcho || v.m.state == Closed ==> v.text.turnTranscripts == [])
  {
    ReachableSession(cfg, at, steps);
    hide Next, Enabled, AudioOf, TextOf;
    RunTakes(cfg, Started(cfg, at), steps);
    var v := After(cfg, Started(cfg, at), steps);
    assert [] + AudioOf(cfg, Started(cfg, at), steps) == AudioOf(cfg, Started(cfg, at), steps);
    assert [] + TextOf(cfg, Started(cfg, at), steps) == TextOf(cfg, Started(cfg, at), steps);
  }

  /** While one turn lasts its cap is armed once: the deadline never moves. */
  lemma TurnCapArmedOnce(cfg: Config, v: View, step: Step)
    requires TimersFit(v.m) && Enabled(v, step)
    requires v.m.turnActive && Next(cfg, v, step).m.turnActive
    ensures Next(cfg, v, step).m.live.turn == v.m.live.turn
    ensures Next(cfg, v, step).text.turns == v.text.turns
  {
    hide FlushTranscripts, MarkEchoTimeout, SendMark, SendAudio, SendClear, AsClip, AsResponse, ClipFrames,
      Flatten, TakeFrame, DispatchSTT, SendBedChunk, TrimSpace;
  }

  /** A run throughout which the turn open at v stays open. */
  ghost predicate TurnLasts(cfg: Config, v: View, steps: seq<Step>)
    requires Legal(cfg, v, steps)
    decreases |steps|
  {
    v.m.turnActive && (steps == [] || TurnLasts(cfg, Next(cfg, v, steps[0]), steps[1..]))
  }

  /** Over any run within one turn the cap's deadline is the one its opening speech set. */
  lemma {:induction false} TurnCapNeverMoves(cfg: Config, v: View, steps: seq<Step>)
    requires Inv(cfg, v) && Legal(cfg, v, steps) && TurnLasts(cfg, v, steps)
    ensures var w := After(cfg, v, steps);
            w.m.live.turn == v.m.live.turn && w.text.turns == v.text.turns
    decreases |steps|
  {
    hide Next, Enabled, AudioConserved, RequestsMatch, TextConserved, TextSettled, BedInStep, CtlShape;
    if steps != [] {
      assert TurnLasts(cfg, Next(cfg, v, steps[0]), steps[1..]);
      TurnCapArmedOnce(cfg, v, steps[0]);
      InvPreserved(cfg, v, steps[0]);
      TurnCapNeverMoves(cfg, Next(cfg, v, steps[0]), steps[1..]);
    }
  }

  /** A turn opens only with speech, and then its cap is due one whole bound later. */
  lemma TurnOpensWithItsCap(cfg: Config, v: View, step: Step)
    requires Enabled(v, step) && !v.m.turnActive && Next(cfg, v, step).m.turnActive
    ensures step.Deliver? && step.ev == Vad(Speech)
    ensures Next(cfg, v, step).m.live.turn == At(step.at + cfg.TurnMS())
  {
  }

  /** A closed session absorbs everything: only its clock and its dead timers can change. */
  lemma {:induction false} ClosedIsTerminal(cfg: Config, v: View, steps: seq<Step>)
    requires v.m.state == Closed && Legal(cfg, v, steps)
    ensures var w := After(cfg, v, steps);
            w.m.state == Closed && w.out == v.out && w.text == v.text
            && w.audio.passes == v.audio.passes && w.audio.taken == v.audio.taken
    decreases |steps|
  {
    if steps != [] {
      ClosedIsTerminal(cfg, Next(cfg, v, steps[0]), steps[1..]);
    }
  }
}
