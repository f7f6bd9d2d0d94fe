/**
 The session as the object the sequencer drives: fields updated in place by one method per
 handler, dispatched through a table that is filled by loops. Every method is proved to
 take the view of the object exactly where the corresponding function takes it.
 */
module SessionObject {
  import opened Common
  import opened CyclicClip
  import opened SessionModel
  import opened Telephony

  const ALL_STATES: seq<SessionState> :=
    [Idle, Listening, AwaitingFullResult, AwaitingResponse, AwaitingResponsePlayout,
     Terminating, AwaitingMarkEcho, Closed]

  const ALL_SOURCES: seq<Source> :=
    [TwilioData, TwilioControl, VADEvent, STTResult, IdleTimer, MarkEchoTimer,
     UtteranceTimer, ResponseReady, ResponseTimer, TurnTimer, BedTick]

  function StateIndex(st: SessionState): (i: nat)
    ensures i < |ALL_STATES| && ALL_STATES[i] == st
  {
    match st
    case Idle => 0
    case Listening => 1
    case AwaitingFullResult => 2
    case AwaitingResponse => 3
    case AwaitingResponsePlayout => 4
    case Terminating => 5
    case AwaitingMarkEcho => 6
    case Closed => 7
  }

  function SourceIndex(src: Source): (j: nat)
    ensures j < |ALL_SOURCES| && ALL_SOURCES[j] == src
  {
    match src
    case TwilioData => 0
    case TwilioControl => 1
    case VADEvent => 2
    case STTResult => 3
    case IdleTimer => 4
    case MarkEchoTimer => 5
    case UtteranceTimer => 6
    case ResponseReady => 7
    case ResponseTimer => 8
    case TurnTimer => 9
    case BedTick => 10
  }

  // ---- the table ---------------------------------------------------------------------------

  predicate TableShape(t: array2<Handler>) { t.Length0 == 8 && t.Length1 == 11 }

  /** Row i, before the termination timers are wired into it. */
  function BaseCell(i: nat, j: nat): Handler
    requires i < 8 && j < 11
  {
    if j == 4 || j == 6 || j == 9 then Unexpected else Cell(i, j)
  }

  function Cell(i: nat, j: nat): Handler
    requires i < 8 && j < 11
  {
    Lookup(ALL_STATES[i], ALL_SOURCES[j])
  }

  method FillRow(t: array2<Handler>, st: SessionState, h: Handler)
    requires TableShape(t)
    modifies t
    ensures forall j :: 0 <= j < 11 ==> t[StateIndex(st), j] == h
    ensures forall r, c :: 0 <= r < 8 && 0 <= c < 11 && r != StateIndex(st) ==> t[r, c] == old(t[r, c])
  {
    var i := StateIndex(st);
    for j := 0 to |ALL_SOURCES|
      invariant forall r, c :: 0 <= r < 8 && 0 <= c < 11 && r != i ==> t[r, c] == old(t[r, c])
      invariant forall c :: 0 <= c < j ==> t[i, c] == h
    {
      t[i, j] := h;
    }
  }

  method FillAll(t: array2<Handler>, h: Handler)
    requires TableShape(t)
    modifies t
    ensures forall i, j :: 0 <= i < 8 && 0 <= j < 11 ==> t[i, j] == h
  {
    for i := 0 to |ALL_STATES|
      invariant forall r, c :: 0 <= r < i && 0 <= c < 11 ==> t[r, c] == h
    {
      assert StateIndex(ALL_STATES[i]) == i;
      FillRow(t, ALL_STATES[i], h);
    }
  }

  method WireIdle(t: array2<Handler>)
    requires TableShape(t) && forall j :: 0 <= j < 11 ==> t[0, j] == Unexpected
    modifies t
    ensures forall j: nat :: j < 11 ==> t[0, j] == BaseCell(0, j)
    ensures forall r, c :: 0 <= r < 8 && 0 <= c < 11 && r != 0 ==> t[r, c] == old(t[r, c])
  {
    t[0, 0] := DataFrame;
    t[0, 1] := ControlEvent;
    t[0, 3] := SttResult;
  }

  method WireListening(t: array2<Handler>)
    requires TableShape(t) && forall j :: 0 <= j < 11 ==> t[1, j] == Unexpected
    modifies t
    ensures forall j: nat :: j < 11 ==> t[1, j] == BaseCell(1, j)
    ensures forall r, c :: 0 <= r < 8 && 0 <= c < 11 && r != 1 ==> t[r, c] == old(t[r, c])
  {
    t[1, 0] := DataFrame;
    t[1, 1] := ControlEvent;
    t[1, 2] := ListeningVAD;
    t[1, 3] := SttResult;
  }

  method WireAwaitingMarkEcho(t: array2<Handler>)
    requires TableShape(t)
    modifies t
    ensures forall j: nat :: j < 11 ==> t[6, j] == Cell(6, j)
    ensures forall r, c :: 0 <= r < 8 && 0 <= c < 11 && r != 6 ==> t[r, c] == old(t[r, c])
  {
    assert StateIndex(AwaitingMarkEcho) == 6;
    FillRow(t, AwaitingMarkEcho, NotImplemented);
    assert forall j :: 0 <= j < 11 ==> t[6, j] == NotImplemented;
    t[6, 1] := MarkEchoControl;
    t[6, 5] := MarkEchoTimeoutH;
    t[6, 0] := Absorb;
    t[6, 2] := Absorb;
    t[6, 3] := Absorb;
  }

  /** The idle, utterance and turn timers, wired into one in-progress state. */
  method WireTimers(t: array2<Handler>, i: nat)
    requires TableShape(t) && i < 8
    modifies t
    ensures t[i, 4] == IdleTimeoutH && t[i, 6] == UtteranceTimeout && t[i, 9] == TurnTimeout
    ensures forall j :: 0 <= j < 11 && j != 4 && j != 6 && j != 9 ==> t[i, j] == old(t[i, j])
    ensures forall r, c :: 0 <= r < 8 && 0 <= c < 11 && r != i ==> t[r, c] == old(t[r, c])
  {
    t[i, 4] := IdleTimeoutH;
    t[i, 6] := UtteranceTimeout;
    t[i, 9] := TurnTimeout;
  }

  method WireAwaitingFullResult(t: array2<Handler>)
    requires TableShape(t)
    requires t[2, 4] == IdleTimeoutH && t[2, 6] == UtteranceTimeout && t[2, 9] == TurnTimeout
    requires forall j :: 0 <= j < 11 && j != 4 && j != 6 && j != 9 ==> t[2, j] == Unexpected
    modifies t
    ensures forall j: nat :: j < 11 ==> t[2, j] == Cell(2, j)
    ensures forall r, c :: 0 <= r < 8 && 0 <= c < 11 && r != 2 ==> t[r, c] == old(t[r, c])
  {
    t[2, 0] := DataFrame;
    t[2, 1] := ControlEvent;
    t[2, 2] := AwaitingFullResultVAD;
    t[2, 3] := SttResult;
  }

  method WireAwaitingResponse(t: array2<Handler>)
    requires TableShape(t) && forall j :: 0 <= j < 11 ==> t[3, j] == Unexpected
    modifies t
    ensures forall j: nat :: j < 11 ==> t[3, j] == Cell(3, j)
    ensures forall r, c :: 0 <= r < 8 && 0 <= c < 11 && r != 3 ==> t[r, c] == old(t[r, c])
  {
    t[3, 0] := DataFrame;
    t[3, 1] := ControlEvent;
    t[3, 3] := SttResult;
    t[3, 7] := ResponseReadyH;
    t[3, 8] := ResponseTimeout;
    t[3, 10] := BedTickH;
  }

  method WireAwaitingResponsePlayout(t: array2<Handler>)
    requires TableShape(t) && forall j :: 0 <= j < 11 ==> t[4, j] == Unexpected
    modifies t
    ensures forall j: nat :: j < 11 ==> t[4, j] == Cell(4, j)
    ensures forall r, c :: 0 <= r < 8 && 0 <= c < 11 && r != 4 ==> t[r, c] == old(t[r, c])
  {
    t[4, 0] := DataFrame;
    t[4, 1] := ResponsePlayoutEcho;
    t[4, 3] := SttResult;
    t[4, 5] := ResponsePlayoutBackstop;
  }

  /** What the wired rows must hold for the rows that whole-row fills and timer wiring complete. */
  lemma RowsCompleted()
    ensures forall j: nat :: j < 11 ==> Cell(5, j) == NotImplemented && Cell(7, j) == ClosedAbsorb
    ensures forall i: nat, j: nat :: i < 2 && j < 11 ==>
              Cell(i, j) == if j == 4 then IdleTimeoutH
                            else if j == 6 then UtteranceTimeout
                            else if j == 9 then TurnTimeout
                            else BaseCell(i, j)
  {
  }

  /** The fail-loud default everywhere, then the overrides written before the timers. */
  method WireDefaults(t: array2<Handler>)
    requires TableShape(t)
    modifies t
    ensures forall i: nat, j: nat :: i < 2 && j < 11 ==> t[i, j] == BaseCell(i, j)
    ensures forall i, j :: (2 <= i < 5 || i == 7) && 0 <= j < 11 ==> t[i, j] == Unexpected
    ensures forall i: nat, j: nat :: 5 <= i < 7 && j < 11 ==> t[i, j] == Cell(i, j)
  {
    RowsCompleted();
    hide Cell, BaseCell, Lookup;
    FillAll(t, Unexpected);
    WireIdle(t);
    WireListening(t);
    FillRow(t, Terminating, NotImplemented);
    WireAwaitingMarkEcho(t);
  }

  /** The termination timers, in each state they may fire in. */
  method WireTerminationTimers(t: array2<Handler>)
    requires TableShape(t)
    requires forall i: nat, j: nat :: i < 2 && j < 11 ==> t[i, j] == BaseCell(i, j)
    modifies t
    ensures forall i: nat, j: nat :: i < 2 && j < 11 ==> t[i, j] == Cell(i, j)
    ensures t[2, 4] == IdleTimeoutH && t[2, 6] == UtteranceTimeout && t[2, 9] == TurnTimeout
    ensures forall j :: 0 <= j < 11 && j != 4 && j != 6 && j != 9 ==> t[2, j] == old(t[2, j])
    ensures forall i, j :: 3 <= i < 8 && 0 <= j < 11 ==> t[i, j] == old(t[i, j])
  {
    RowsCompleted();
    hide Cell, BaseCell, Lookup;
    WireTimers(t, StateIndex(Idle));
    WireTimers(t, StateIndex(Listening));
    WireTimers(t, StateIndex(AwaitingFullResult));
  }

  /** Defaults first, then the overrides in the order they are written. */
  method BuildTransitionTable() returns (t: array2<Handler>)
    ensures fresh(t) && TableShape(t)
    ensures forall i: nat, j: nat :: i < 8 && j < 11 ==> t[i, j] == Cell(i, j)
  {
    RowsCompleted();
    hide Cell, BaseCell, Lookup;
    t := new Handler[8, 11];
    WireDefaults(t);
    WireTerminationTimers(t);
    WireAwaitingFullResult(t);
    WireAwaitingResponse(t);
    WireAwaitingResponsePlayout(t);
    assert StateIndex(Closed) == 7;
    FillRow(t, Closed, ClosedAbsorb);
    assert forall j: nat :: j < 11 ==> t[7, j] == Cell(7, j);
  }

  // ---- the session -------------------------------------------------------------------------

  class Session {
    const cfg: Config
    const transitions: array2<Handler>

    var state: SessionState
    var now: nat
    var timers: Timers
    var turnActive: bool
    var turnEndPending: bool

    var forwardCh: seq<seq<Byte>>
    var turnBuf: seq<Byte>
    var sttReqID: nat
    var sttDispatchCh: seq<STTRequest>

    var turnTranscripts: seq<string>
    var transcriptTurns: seq<Turn>

    var bedOffset: nat
    var dataOut: seq<Outbound>
    var ctlOut: seq<CtlOut>
    var transportCloses: nat

    ghost var taken: seq<Byte>
    ghost var passes: seq<seq<Byte>>
    ghost var accepted: seq<string>
    ghost var bedSent: seq<Byte>

    ghost function MachineView(): Machine
      reads this
    {
      Machine(state, now, timers, turnActive, turnEndPending)
    }

    ghost function AudioView(): CallerAudio
      reads this
    {
      CallerAudio(forwardCh, turnBuf, taken, passes, sttReqID, sttDispatchCh)
    }

    ghost function TextView(): CallerText
      reads this
    {
      CallerText(turnTranscripts, transcriptTurns, accepted)
    }

    ghost function OutputView(): Output
      reads this
    {
      Output(bedOffset, bedSent, dataOut, ctlOut, transportCloses)
    }

    ghost function V(): View
      reads this
    {
      View(MachineView(), AudioView(), TextView(), OutputView())
    }

    /** The table is the one BuildTransitionTable builds, and the bed stays inside its clip. */
    ghost predicate Valid()
      reads this, transitions
    {
      && TableShape(transitions)
      && (forall i: nat, j: nat :: i < 8 && j < 11 ==> transitions[i, j] == Cell(i, j))
      && (cfg.BedPlays() ==> bedOffset < |cfg.thinking|)
    }

    constructor (cfg: Config, table: array2<Handler>, at: nat)
      requires TableShape(table)
      requires forall i: nat, j: nat :: i < 8 && j < 11 ==> table[i, j] == Cell(i, j)
      ensures Valid() && V() == Started(cfg, at)
      ensures this.cfg == cfg && transitions == table
    {
      this.cfg := cfg;
      transitions := table;
      state, now, turnActive, turnEndPending := Idle, at, false, false;
      timers := Timers(At(at + cfg.IdleMS()), Off, Off, Off, Off, Off);
      forwardCh, turnBuf, sttReqID, sttDispatchCh := [], [], 0, [];
      turnTranscripts, transcriptTurns := [], [];
      bedOffset, dataOut, ctlOut, transportCloses := 0, [], [], 0;
      taken, passes, accepted, bedSent := [], [], [], [];
    }

    // ---- shared effects

    method ArmTimer(t: Timer, ms: nat)
      modifies this`timers
      ensures MachineView() == Arm(old(MachineView()), t, ms)
    {
      timers := timers.With(t, At(now + ms));
    }

    method CancelTimer(t: Timer)
      modifies this`timers
      ensures MachineView() == Cancel(old(MachineView()), t)
    {
      timers := timers.With(t, Off);
    }

    method FlushTurnTranscripts(trigger: Trigger)
      modifies this`turnTranscripts, this`transcriptTurns
      ensures TextView() == FlushTranscripts(old(TextView()), trigger)
    {
      if turnTranscripts == [] { return; }
      transcriptTurns := transcriptTurns + [Turn(turnTranscripts, trigger)];
      turnTranscripts := [];
    }

    method DoCompleteTurn(trigger: Trigger)
      modifies this`turnTranscripts, this`transcriptTurns, this`turnActive, this`turnEndPending, this`timers
      ensures V() == CompleteTurn(old(V()), trigger)
    {
      FlushTurnTranscripts(trigger);
      turnActive := false;
      turnEndPending := false;
      CancelTimer(TTurn);
    }

    method SendClip(clip: seq<Byte>)
      modifies this`dataOut
      ensures OutputView() == SendAudio(cfg, old(OutputView()), AsClip(ClipFrames(clip)))
    {
      if !cfg.dataWired { return; }
      AsClipEnds();
      hide ClipFrames, AsClip;
      var i := 0;
      ghost var sent: seq<seq<Byte>> := [];
      while i < |clip|
        invariant 0 <= i <= |clip|
        invariant dataOut == old(dataOut) + AsClip(sent)
        invariant sent + ClipFrames(clip[i..]) == ClipFrames(clip)
      {
        var end := if i + FRAME_BYTES > |clip| then |clip| else i + FRAME_BYTES;
        ClipFramesStep(clip, i);
        dataOut := dataOut + [ClipFrame(clip[i..end])];
        AsClipStep(sent, clip[i..end]);
        sent := sent + [clip[i..end]];
        i := end;
      }
      assert clip[i..] == [];
    }

    method SendMarkOut(name: string)
      modifies this`ctlOut
      ensures OutputView() == SendMark(cfg, old(OutputView()), name)
    {
      if cfg.ctlWired { ctlOut := ctlOut + [Mark(name)]; }
    }

    method DoTerminateWithClip(clip: seq<Byte>)
      modifies this`dataOut, this`ctlOut, this`state, this`timers
      ensures V() == TerminateWithClip(cfg, old(V()), clip)
    {
      hide SendAudio, SendMark, Arm, AsClip, ClipFrames, MarkEchoTimeout;
      SendClip(clip);
      state := AwaitingMarkEcho;
      SendMarkOut(FAREWELL_MARK);
      ArmTimer(TMarkEcho, MarkEchoTimeout(|clip|));
      assert AudioView() == old(AudioView()) && TextView() == old(TextView());
    }

    /** The bed starts over from the head of its clip. */
    method StartBed()
      modifies this`timers, this`bedOffset, this`bedSent
      ensures MachineView() == Arm(old(MachineView()), TBedTick, BED_TICK_MS)
      ensures OutputView() == old(OutputView()).(bedOffset := 0, bedSent := [])
    {
      bedOffset := 0;
      bedSent := [];
      ArmTimer(TBedTick, BED_TICK_MS);
    }

    method DoEnterAwaitingResponse()
      modifies this`timers, this`bedOffset, this`bedSent, this`state
      ensures V() == EnterAwaitingResponse(cfg, old(V()))
      ensures bedOffset == 0
    {
      hide Arm, Cancel;
      CancelTimer(TIdle);
      ArmTimer(TResponse, cfg.ResponseMS());
      StartBed();
      state := AwaitingResponse;
    }

    method DoOnUtteranceEnd()
      modifies this`timers
      ensures MachineView() == OnUtteranceEnd(cfg, old(MachineView()))
    {
      CancelTimer(TUtterance);
      ArmTimer(TIdle, cfg.IdleMS());
    }

    method DispatchSTTRequest()
      modifies this`sttReqID, this`sttDispatchCh
      ensures AudioView() == DispatchSTT(cfg, old(AudioView()))
    {
      if !cfg.sttWired { return; }
      sttReqID := sttReqID + 1;
      if |sttDispatchCh| < STT_DISPATCH_DEPTH {
        sttDispatchCh := sttDispatchCh + [STTRequest(sttReqID, turnBuf)];
      }
    }

    method DoCloseTransport()
      modifies this`timers, this`transportCloses, this`state
      ensures V() == CloseTransport(old(V()))
    {
      CancelTimer(TMarkEcho);
      transportCloses := transportCloses + 1;
      state := Closed;
    }

    /** One bed chunk, read across the end of the clip as often as it takes. */
    method SendBedChunkOut()
      requires cfg.BedPlays() ==> bedOffset < |cfg.thinking|
      modifies this`dataOut, this`bedOffset, this`bedSent
      ensures OutputView() == SendBedChunk(cfg, old(OutputView()))
      ensures cfg.BedPlays() ==> bedOffset < |cfg.thinking|
    {
      var clip := cfg.thinking;
      if !cfg.dataWired || |clip| == 0 { return; }
      ghost var start := bedOffset;
      var chunk := [];
      ModUnique(start, 0, start, |clip|);
      while |chunk| < BED_CHUNK_BYTES
        invariant |chunk| <= BED_CHUNK_BYTES
        invariant 0 <= bedOffset < |clip|
        invariant chunk == Loop(clip, start, |chunk|)
        invariant bedOffset == (start + |chunk|) % |clip|
        invariant dataOut == old(dataOut) && bedSent == old(bedSent)
        decreases BED_CHUNK_BYTES - |chunk|
      {
        var end := Min(bedOffset + (BED_CHUNK_BYTES - |chunk|), |clip|);
        CopyContinuesLoop(clip, start, |chunk|, bedOffset, end);
        chunk := chunk + clip[bedOffset..end];
        bedOffset := end;
        if bedOffset >= |clip| {
          bedOffset := 0;
        }
      }
      dataOut := dataOut + [BedChunk(chunk)];
      bedSent := bedSent + chunk;
    }

    // ---- handlers

    method DoDataFrame(frame: seq<Byte>)
      modifies this`turnBuf, this`taken, this`forwardCh, this`state
      ensures V() == HandleDataFrame(old(V()), frame)
    {
      turnBuf := turnBuf + frame;
      taken := taken + frame;
      if |forwardCh| < PLANE_DEPTH {
        forwardCh := forwardCh + [frame];
      }
      if state == Idle {
        state := Listening;
      }
    }

    method DoControlEvent(kind: string)
      modifies this`turnTranscripts, this`transcriptTurns, this`turnActive, this`turnEndPending,
        this`timers, this`state
      ensures V() == HandleControlEvent(old(V()), kind)
    {
      if kind == KIND_STOP {
        DoCompleteTurn(CallEnd);
        state := Closed;
      }
    }

    method DoSpeechOnset()
      modifies this`timers, this`turnActive
      ensures MachineView() == HandleSpeechOnset(cfg, old(MachineView()))
    {
      CancelTimer(TIdle);
      ArmTimer(TUtterance, cfg.UtteranceMS());
      if !turnActive {
        ArmTimer(TTurn, cfg.TurnMS());
      }
      turnActive := true;
    }

    /** The buffered utterance handed over, and a fresh buffer for the next one. */
    method HandOverUtterance()
      modifies this`sttReqID, this`sttDispatchCh, this`passes, this`turnBuf
      ensures AudioView() == DispatchSTT(cfg, old(AudioView()))
                .(passes := old(passes) + [old(turnBuf)], turnBuf := [])
    {
      DispatchSTTRequest();
      passes := passes + [turnBuf];
      turnBuf := [];
    }

    method DoDispatchFullPass()
      modifies this`timers, this`sttReqID, this`sttDispatchCh, this`passes, this`turnBuf, this`state
      ensures V() == DispatchFullPass(cfg, old(V()))
    {
      hide OnUtteranceEnd, DispatchSTT;
      DoOnUtteranceEnd();
      HandOverUtterance();
      state := AwaitingFullResult;
      assert TextView() == old(TextView()) && OutputView() == old(OutputView());
      assert MachineView() == OnUtteranceEnd(cfg, old(MachineView())).(state := AwaitingFullResult);
    }

    method DoVAD(kind: VoiceKind)
      modifies this
      ensures V() == HandleVAD(cfg, old(V()), kind)
      ensures bedOffset == old(bedOffset) || bedOffset == 0
    {
      match kind
      case Speech => DoSpeechOnset();
      case Silence =>
      case TurnEnd =>
        if state == AwaitingFullResult {
          turnEndPending := true;
        } else {
          DoCompleteTurn(SilenceTurnEnd);
          DoEnterAwaitingResponse();
        }
      case EndOfUtterance =>
        if state == AwaitingFullResult {
          DoOnUtteranceEnd();
        } else {
          DoDispatchFullPass();
        }
    }

    method DoSTTResult(ev: Event)
      requires ev.Stt?
      modifies this
      ensures V() == HandleSTTResult(cfg, old(V()), ev)
      ensures bedOffset == old(bedOffset) || bedOffset == 0
    {
      if ev.sessionID != cfg.callSID || ev.requestID != sttReqID { return; }
      var turnCompleted := false;
      if ev.fullPass {
        if cfg.IsStopword(ev.text) {
          DoCompleteTurn(Stopword);
          turnCompleted := true;
        } else {
          turnTranscripts := turnTranscripts + [TrimSpace(ev.text)];
          accepted := accepted + [TrimSpace(ev.text)];
          if turnEndPending {
            DoCompleteTurn(SilenceTurnEnd);
            turnCompleted := true;
          }
        }
      }
      if ev.fullPass && state == AwaitingFullResult {
        if turnCompleted {
          DoEnterAwaitingResponse();
        } else {
          state := Listening;
        }
      }
    }

    method SendClearOut()
      modifies this`ctlOut
      ensures OutputView() == SendClear(cfg, old(OutputView()))
    {
      if cfg.ctlWired { ctlOut := ctlOut + [Clear]; }
    }

    method SendResponseFrames(frames: seq<seq<Byte>>)
      modifies this`dataOut
      ensures OutputView() == SendAudio(cfg, old(OutputView()), AsResponse(frames))
    {
      if !cfg.dataWired { return; }
      for i := 0 to |frames|
        invariant dataOut == old(dataOut) + AsResponse(frames[..i])
      {
        dataOut := dataOut + [ResponseFrame(frames[i])];
        assert AsResponse(frames[..i + 1]) == AsResponse(frames[..i]) + [ResponseFrame(frames[i])];
      }
      assert frames[..|frames|] == frames;
    }

    /** The response out, then its mark, and a wait for the echo that covers its playing time. */
    method StartPlayout(frames: seq<seq<Byte>>)
      modifies this`dataOut, this`ctlOut, this`timers, this`state
      ensures MachineView() == Arm(old(MachineView()), TMarkEcho, MarkEchoTimeout(|Flatten(frames)|))
                .(state := AwaitingResponsePlayout)
      ensures OutputView() == SendMark(cfg, SendAudio(cfg, old(OutputView()), AsResponse(frames)), RESPONSE_MARK)
    {
      hide Arm, SendAudio, SendMark, AsResponse, Flatten, MarkEchoTimeout;
      SendResponseFrames(frames);
      SendMarkOut(RESPONSE_MARK);
      ArmTimer(TMarkEcho, MarkEchoTimeout(|Flatten(frames)|));
      state := AwaitingResponsePlayout;
    }

    method DoResponseReady(ev: Event)
      requires ev.Response?
      modifies this`timers, this`ctlOut, this`dataOut, this`state
      ensures V() == HandleResponseReady(cfg, old(V()), ev)
    {
      hide Arm, Cancel, SendAudio, SendMark, SendClear, AsResponse, Flatten, MarkEchoTimeout;
      CancelTimer(TResponse);
      CancelTimer(TBedTick);
      SendClearOut();
      if !ev.ok {
        ArmTimer(TIdle, cfg.IdleMS());
        state := Listening;
      } else {
        StartPlayout(ev.frames);
      }
      assert AudioView() == old(AudioView()) && TextView() == old(TextView());
    }

    method DoPlayoutEcho(ev: Event)
      requires ev.Control?
      modifies this`timers, this`state
      ensures V() == HandlePlayoutEcho(cfg, old(V()), ev)
    {
      if ev.kind == KIND_MARK && ev.markName == RESPONSE_MARK {
        CancelTimer(TMarkEcho);
        ArmTimer(TIdle, cfg.IdleMS());
        state := Listening;
      }
    }

    method DoMarkEcho(ev: Event)
      requires ev.Control?
      modifies this`timers, this`transportCloses, this`state
      ensures V() == HandleMarkEcho(old(V()), ev)
    {
      if ev.kind == KIND_MARK && ev.markName == FAREWELL_MARK {
        DoCloseTransport();
      }
    }

    method DoIdleTimer()
      modifies this
      ensures V() == TerminateWithClip(cfg, CompleteTurn(old(V()), IdleTimeout), cfg.farewell)
      ensures bedOffset == old(bedOffset)
    {
      hide TerminateWithClip, CompleteTurn;
      DoCompleteTurn(IdleTimeout);
      DoTerminateWithClip(cfg.farewell);
    }

    method DoUtteranceTimeout()
      modifies this
      ensures V() == TerminateWithClip(cfg, CompleteTurn(old(V()), UtteranceCap), cfg.forcedStop)
      ensures bedOffset == old(bedOffset)
    {
      hide TerminateWithClip, CompleteTurn;
      DoCompleteTurn(UtteranceCap);
      DoTerminateWithClip(cfg.forcedStop);
    }

    method DoTurnTimeout()
      modifies this
      ensures V() == TerminateWithClip(cfg, CompleteTurn(old(V()), TurnCap), cfg.forcedStop)
      ensures bedOffset == old(bedOffset)
    {
      hide TerminateWithClip, CompleteTurn;
      DoCompleteTurn(TurnCap);
      DoTerminateWithClip(cfg.forcedStop);
    }

    method DoResponseTimeout()
      modifies this
      ensures V() == HandleResponseTimeout(cfg, old(V()))
      ensures bedOffset == old(bedOffset)
    {
      hide TerminateWithClip, CompleteTurn, Cancel;
      CancelTimer(TBedTick);
      DoCompleteTurn(ResponseCap);
      DoTerminateWithClip(cfg.farewell);
    }

    method DoBedTick()
      requires cfg.BedPlays() ==> bedOffset < |cfg.thinking|
      modifies this`timers, this`dataOut, this`bedOffset, this`bedSent
      ensures V() == HandleBedTick(cfg, old(V()))
      ensures cfg.BedPlays() ==> bedOffset < |cfg.thinking|
    {
      hide SendBedChunk, Arm;
      SendBedChunkOut();
      ArmTimer(TBedTick, BED_TICK_MS);
    }

    method DoBackToListening()
      modifies this`timers, this`state
      ensures MachineView() == BackToListening(cfg, old(MachineView()))
    {
      ArmTimer(TIdle, cfg.IdleMS());
      state := Listening;
    }

    /** Inputs that come from the caller or from the recognizer. */
    method ApplyHeard(h: Handler, ev: Event)
      requires h == Lookup(state, SourceOf(ev))
      requires h == DataFrame || h == ControlEvent || h == ListeningVAD ||
               h == AwaitingFullResultVAD || h == SttResult
      modifies this
      ensures V() == Handle(cfg, old(V()), h, ev)
      ensures bedOffset == old(bedOffset) || bedOffset == 0
    {
      HandlerFitsEvent(state, ev);
      hide Lookup, SourceOf, HandleVAD, HandleSTTResult, HandleControlEvent, HandleDataFrame;
      match h
      case DataFrame => DoDataFrame(ev.frame);
      case ControlEvent => DoControlEvent(ev.kind);
      case ListeningVAD => DoVAD(ev.vad);
      case AwaitingFullResultVAD => DoVAD(ev.vad);
      case SttResult => DoSTTResult(ev);
    }

    /** The timers that end the call, or the wait for an echo. */
    method ApplyExpiry(h: Handler, ev: Event)
      requires h == Lookup(state, SourceOf(ev))
      requires h == IdleTimeoutH || h == UtteranceTimeout || h == TurnTimeout ||
               h == ResponseTimeout || h == ResponsePlayoutBackstop || h == MarkEchoTimeoutH
      modifies this
      ensures V() == Handle(cfg, old(V()), h, ev)
      ensures bedOffset == old(bedOffset)
    {
      hide Lookup, SourceOf, HandleDataFrame, HandleControlEvent, HandleVAD, HandleSTTResult, HandleResponseReady,
        HandlePlayoutEcho, HandleMarkEcho, HandleBedTick, HandleResponseTimeout, CompleteTurn,
        TerminateWithClip, CloseTransport, BackToListening;
      match h
      case IdleTimeoutH => DoIdleTimer();
      case UtteranceTimeout => DoUtteranceTimeout();
      case TurnTimeout => DoTurnTimeout();
      case ResponseTimeout => DoResponseTimeout();
      case ResponsePlayoutBackstop => DoBackToListening();
      case MarkEchoTimeoutH => DoCloseTransport();
    }

    /** The bed, the answer and the echoes; every other handler leaves the session as it is. */
    method ApplyAnswer(h: Handler, ev: Event)
      requires h == Lookup(state, SourceOf(ev)) && (cfg.BedPlays() ==> bedOffset < |cfg.thinking|)
      requires h == ResponseReadyH || h == BedTickH || h == ResponsePlayoutEcho || h == MarkEchoControl ||
               h == Unexpected || h == NotImplemented || h == Absorb || h == ClosedAbsorb
      modifies this
      ensures V() == Handle(cfg, old(V()), h, ev)
      ensures cfg.BedPlays() ==> bedOffset < |cfg.thinking|
    {
      HandlerFitsEvent(state, ev);
      hide Lookup, SourceOf, HandleResponseReady, HandlePlayoutEcho, HandleMarkEcho, HandleBedTick;
      match h
      case ResponseReadyH => DoResponseReady(ev);
      case BedTickH => DoBedTick();
      case ResponsePlayoutEcho => DoPlayoutEcho(ev);
      case MarkEchoControl => DoMarkEcho(ev);
      case _ =>
    }

    /** The handler the table names for this state and source, applied. */
    method Apply(h: Handler, ev: Event)
      requires Valid() && h == Lookup(state, SourceOf(ev))
      modifies this
      ensures Valid() && V() == Handle(cfg, old(V()), h, ev)
    {
      HandlerFitsEvent(state, ev);
      hide Lookup, SourceOf, Handle;
      match h
      case DataFrame => ApplyHeard(h, ev);
      case ControlEvent => ApplyHeard(h, ev);
      case ListeningVAD => ApplyHeard(h, ev);
      case AwaitingFullResultVAD => ApplyHeard(h, ev);
      case SttResult => ApplyHeard(h, ev);
      case IdleTimeoutH => ApplyExpiry(h, ev);
      case UtteranceTimeout => ApplyExpiry(h, ev);
      case TurnTimeout => ApplyExpiry(h, ev);
      case ResponseTimeout => ApplyExpiry(h, ev);
      case ResponsePlayoutBackstop => ApplyExpiry(h, ev);
      case MarkEchoTimeoutH => ApplyExpiry(h, ev);
      case _ => ApplyAnswer(h, ev);
    }

    /** One input, handled at instant `at`: look the handler up, apply it, keep the state. */
    method Dispatch(ev: Event, at: nat)
      requires Valid() && Enabled(V(), Deliver(ev, at))
      modifies this
      ensures Valid() && V() == Next(cfg, old(V()), Deliver(ev, at))
    {
      now := at;
      if ev.TimerFired? {
        CancelTimer(ev.timer);
      }
      var h := transitions[StateIndex(state), SourceIndex(SourceOf(ev))];
      assert h == Cell(StateIndex(state), SourceIndex(SourceOf(ev)));
      Apply(h, ev);
    }
  }

  /** The payload a handler reads is the one its source carries. */
  lemma HandlerFitsEvent(st: SessionState, ev: Event)
    ensures match Lookup(st, SourceOf(ev))
            case DataFrame => ev.Data?
            case ControlEvent => ev.Control?
            case ListeningVAD => ev.Vad?
            case AwaitingFullResultVAD => ev.Vad?
            case SttResult => ev.Stt?
            case ResponseReadyH => ev.Response?
            case ResponsePlayoutEcho => ev.Control?
            case MarkEchoControl => ev.Control?
            case _ => true
  {
  }

  lemma AsClipEnds()
    ensures AsClip([]) == [] && ClipFrames([]) == []
  {
  }

  lemma AsClipStep(sent: seq<seq<Byte>>, frame: seq<Byte>)
    ensures AsClip(sent + [frame]) == AsClip(sent) + [ClipFrame(frame)]
  {
  }

  lemma ClipFramesStep(clip: seq<Byte>, i: nat)
    requires i < |clip|
    ensures var end := if i + FRAME_BYTES > |clip| then |clip| else i + FRAME_BYTES;
            ClipFrames(clip[i..]) == [clip[i..end]] + ClipFrames(clip[end..])
  {
    var rest := clip[i..];
    if |rest| <= FRAME_BYTES {
      assert clip[i..|clip|] == rest && clip[|clip|..] == [];
    } else {
      assert rest[..FRAME_BYTES] == clip[i..i + FRAME_BYTES];
      assert rest[FRAME_BYTES..] == clip[i + FRAME_BYTES..];
    }
  }

  /** The frames of a clip, put back together, are the clip. */
  lemma {:induction false} ClipFramesWhole(clip: seq<Byte>)
    ensures Flatten(ClipFrames(clip)) == clip
  {
    if |clip| <= FRAME_BYTES {
      if clip != [] {
        FlattenHead(clip, []);
        assert [clip] + [] == [clip];
        assert clip + [] == clip;
      }
    } else {
      ClipFramesWhole(clip[FRAME_BYTES..]);
      FlattenHead(clip[..FRAME_BYTES], ClipFrames(clip[FRAME_BYTES..]));
    }
  }

  /** No frame is empty, and only the last may be short. */
  lemma {:induction false} ClipFramesSized(clip: seq<Byte>, k: nat)
    requires k < |ClipFrames(clip)|
    ensures 0 < |ClipFrames(clip)[k]| <= FRAME_BYTES
    ensures k + 1 < |ClipFrames(clip)| ==> |ClipFrames(clip)[k]| == FRAME_BYTES
    decreases k
  {
    if |clip| > FRAME_BYTES && k > 0 {
      ClipFramesSized(clip[FRAME_BYTES..], k - 1);
    }
  }

  /** Copying up to the end of the clip keeps a chunk in step with the repeated clip. */
  lemma CopyContinuesLoop(clip: seq<Byte>, start: nat, n: nat, off: nat, end: nat)
    requires |clip| > 0 && off == (start + n) % |clip| && off <= end <= |clip|
    ensures Loop(clip, start, n) + clip[off..end] == Loop(clip, start, n + (end - off))
    ensures (if end >= |clip| then 0 else end) == (start + n + (end - off)) % |clip|
  {
    var k := end - off;
    LoopSlice(clip, off, k);
    LoopReduced(clip, start + n, k);
    LoopAppend(clip, start, n, k);
    ModShift(start + n, k, |clip|);
    if end >= |clip| {
      ModUnique(end, 1, 0, |clip|);
    } else {
      ModUnique(end, 0, end, |clip|);
    }
  }
}
