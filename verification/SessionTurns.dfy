/** When turns complete, and what a deferred completion waits for. */
module SessionTurns {
  import opened Common
  import opened SessionModel
  import opened Telephony
  import opened SessionInvariants

  /** Why an input completes the turn in this state, if it does. */
  function TriggerOf(cfg: Config, v: View, ev: Event): Option<Trigger> {
    match ev
    case Data(_) => None
    case Control(kind, _) =>
      if kind == KIND_STOP && (InProgress(v.m.state) || v.m.state == AwaitingResponse) then Some(CallEnd) else None
    case Vad(kind) => if kind == TurnEnd && v.m.state == Listening then Some(SilenceTurnEnd) else None
    case Stt(_, _, _, text) =>
      if !Hearing(v.m.state) || !Answers(cfg, v.audio, ev) then None
      else if cfg.IsStopword(text) then Some(Stopword)
      else if v.m.turnEndPending then Some(SilenceTurnEnd)
      else None
    case Response(_, _) => None
    case TimerFired(t) =>
      match t
      case TIdle => if InProgress(v.m.state) then Some(IdleTimeout) else None
      case TUtterance => if InProgress(v.m.state) then Some(UtteranceCap) else None
      case TTurn => if InProgress(v.m.state) then Some(TurnCap) else None
      case TResponse => if v.m.state == AwaitingResponse then Some(ResponseCap) else None
      case _ => None
  }

  /** What the caller has said in the open turn once this input has been heard. */
  function OpenTurn(cfg: Config, v: View, ev: Event): seq<string> {
    if ev.Stt? && Hearing(v.m.state) && Answers(cfg, v.audio, ev) && !cfg.IsStopword(ev.text)
    then v.text.turnTranscripts + [TrimSpace(ev.text)]
    else v.text.turnTranscripts
  }

  lemma TimerCompletes(cfg: Config, v: View, t: Timer, at: nat)
    requires Enabled(v, Deliver(TimerFired(t), at))
    ensures var trigger := TriggerOf(cfg, v, TimerFired(t));
            Next(cfg, v, Deliver(TimerFired(t), at)).text ==
            if trigger.None? then v.text else FlushTranscripts(v.text, trigger.value)
  {
    hide FlushTranscripts, SendBedChunk, MarkEchoTimeout, ClipFrames, SendMark, SendAudio, AsClip,
      HandleVAD, HandleSTTResult, HandleResponseReady, HandleDataFrame, HandlePlayoutEcho,
      HandleMarkEcho, HandleControlEvent;
    match t
    case TIdle =>
    case TMarkEcho =>
    case TUtterance =>
    case TResponse =>
    case TTurn =>
    case TBedTick =>
  }

  lemma SttCompletes(cfg: Config, v: View, ev: Event)
    requires ev.Stt? && Hearing(v.m.state)
    ensures var trigger, open := TriggerOf(cfg, v, ev), OpenTurn(cfg, v, ev);
            var text := HandleSTTResult(cfg, v, ev).text;
            text.turns == v.text.turns + (if trigger.Some? && open != [] then [Turn(open, trigger.value)] else [])
            && text.turnTranscripts == if trigger.Some? then [] else open
  {
    hide TrimSpace, EnterAwaitingResponse;
    EnterKeepsText(cfg, v);
    if Answers(cfg, v.audio, ev) {
      var stop := cfg.IsStopword(ev.text);
      var heard := if stop then v else v.(text := Accept(v.text, TrimSpace(ev.text)));
      EnterKeepsText(cfg, CompleteTurn(heard, if stop then Stopword else SilenceTurnEnd));
    }
  }

  lemma EnterKeepsText(cfg: Config, v: View)
    ensures EnterAwaitingResponse(cfg, v).text == v.text
  {
  }

  lemma InputCompletes(cfg: Config, v: View, ev: Event)
    requires !ev.TimerFired? && !ev.Stt?
    ensures var trigger := TriggerOf(cfg, v, ev);
            Handle(cfg, v, Lookup(v.m.state, SourceOf(ev)), ev).text ==
            if trigger.None? then v.text else FlushTranscripts(v.text, trigger.value)
  {
    hide FlushTranscripts, MarkEchoTimeout, SendMark, SendAudio, SendClear, AsResponse, Flatten, TakeFrame,
      DispatchSTT, SendBedChunk, TerminateWithClip, HandleSTTResult, HandleBedTick, HandleResponseTimeout;
    match ev
    case Data(_) =>
    case Control(_, _) =>
    case Vad(_) =>
    case Response(_, _) =>
  }

  /** The result of an STT event in the states that do not take one. */
  lemma SttIgnored(cfg: Config, v: View, ev: Event)
    requires ev.Stt? && !Hearing(v.m.state)
    ensures Handle(cfg, v, Lookup(v.m.state, SourceOf(ev)), ev) == v
  {
  }

  /**
   Every input either leaves the completed turns alone or completes exactly one: the one
   that is open, with everything heard in it, for the reason this input gives.
   */
  lemma TurnsCompleteExactly(cfg: Config, v: View, ev: Event, at: nat)
    requires Enabled(v, Deliver(ev, at))
    ensures var trigger, open := TriggerOf(cfg, v, ev), OpenTurn(cfg, v, ev);
            var text := Next(cfg, v, Deliver(ev, at)).text;
            text.turns == v.text.turns + (if trigger.Some? && open != [] then [Turn(open, trigger.value)] else [])
            && text.turnTranscripts == if trigger.Some? then [] else open
  {
    hide Handle, Lookup, TrimSpace;
    var a := v.(m := Arrive(v.m, ev, at));
    match ev
    case TimerFired(t) => TimerCompletes(cfg, v, t, at);
    case Stt(_, _, _, _) =>
      if Hearing(v.m.state) {
        SttCompletes(cfg, a, ev);
        SttReaches(cfg, a, ev);
      } else {
        SttIgnored(cfg, a, ev);
      }
    case _ => InputCompletes(cfg, a, ev);
  }

  lemma SttReaches(cfg: Config, v: View, ev: Event)
    requires ev.Stt? && Hearing(v.m.state)
    ensures Handle(cfg, v, Lookup(v.m.state, SourceOf(ev)), ev) == HandleSTTResult(cfg, v, ev)
  {
    hide HandleSTTResult;
  }

  /** Whitespace and nothing else. */
  ghost predicate AllSpace(s: string) { forall k :: 0 <= k < |s| ==> IsSpace(s[k]) }

  lemma {:induction false} TrimLeftExactly(s: string) returns (n: nat)
    ensures n <= |s| && TrimLeft(s) == s[n..] && AllSpace(s[..n]) && (n < |s| ==> !IsSpace(s[n]))
    decreases |s|
  {
    hide IsSpace;
    n := 0;
    if s != "" && IsSpace(s[0]) {
      var m := TrimLeftExactly(s[1..]);
      n := m + 1;
      assert s[..n] == [s[0]] + s[1..][..m];
    }
  }

  lemma {:induction false} TrimRightExactly(s: string) returns (n: nat)
    ensures n <= |s| && TrimRight(s) == s[..n] && AllSpace(s[n..]) && (n > 0 ==> !IsSpace(s[n - 1]))
    decreases |s|
  {
    hide IsSpace;
    n := |s|;
    if s != "" && IsSpace(s[|s| - 1]) {
      n := TrimRightExactly(s[..|s| - 1]);
      assert s[n..] == s[..|s| - 1][n..] + [s[|s| - 1]];
    }
  }

  /** An accepted transcript loses the whitespace at both ends and nothing else. */
  lemma TrimmedExactly(s: string) returns (i: nat, j: nat)
    ensures i <= j <= |s| && TrimSpace(s) == s[i..j] && AllSpace(s[..i]) && AllSpace(s[j..])
    ensures i < j ==> !IsSpace(s[i]) && !IsSpace(s[j - 1])
  {
    hide IsSpace;
    i := TrimLeftExactly(s);
    var n := TrimRightExactly(s[i..]);
    j := i + n;
    assert s[i..][..n] == s[i..j] && s[i..][n..] == s[j..];
  }

  // ---- a turn end that comes while a pass is still out ---------------------------------------------

  /** Once remembered it is forgotten only by completing the turn. */
  ghost predicate DeferredUntilCompleted(w: View) {
    (w.m.turnEndPending && w.m.state == AwaitingFullResult) || (!w.m.turnEndPending && w.text.turnTranscripts == [])
  }

  lemma DeferralHolds(cfg: Config, v: View, step: Step)
    requires Inv(cfg, v) && Enabled(v, step) && v.m.turnEndPending
    ensures DeferredUntilCompleted(Next(cfg, v, step))
  {
    hide AudioConserved, RequestsMatch, TextConserved, BedInStep, Rounds, MarkEchoTimeout, ClipFrames, SendMark,
      SendAudio, AsClip, DispatchSTT, SendBedChunk, TrimSpace, TakeFrame, HandleResponseReady;
    match step
    case Deliver(ev, at) =>
      match ev {
        case Data(_) =>
        case Control(_, _) =>
        case Vad(_) =>
        case Stt(_, _, _, _) =>
        case Response(_, _) =>
        case TimerFired(t) => match t case _ =>
      }
    case _ =>
  }

  /**
   A deferred turn end completes with the pass it waited for: the answering transcript is
   the last part of the turn, and the session goes on to await the response.
   */
  lemma DeferredTurnIncludesItsPass(cfg: Config, v: View, ev: Event, at: nat)
    requires Inv(cfg, v) && v.m.turnEndPending && Enabled(v, Deliver(ev, at))
    requires ev.Stt? && Answers(cfg, v.audio, ev) && !cfg.IsStopword(ev.text)
    ensures var w := Next(cfg, v, Deliver(ev, at));
            && w.text.turns == v.text.turns + [Turn(v.text.turnTranscripts + [TrimSpace(ev.text)], SilenceTurnEnd)]
            && w.text.turnTranscripts == []
            && w.m.state == AwaitingResponse && !w.m.turnEndPending && !w.m.turnActive
            && w.m.live.response == At(at + cfg.ResponseMS()) && w.m.live.idle == Off && w.m.live.turn == Off
  {
    TurnsCompleteExactly(cfg, v, ev, at);
    hide TrimSpace, AudioConserved, RequestsMatch, TextConserved, Rounds;
  }
}
