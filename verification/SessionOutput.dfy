/** What the caller hears of a session: every response it accepts, and at most one closing clip. */
module SessionOutput {
  import opened Common
  import opened CyclicClip
  import opened SessionModel
  import opened Telephony
  import opened SessionInvariants
  import SessionObject

  /** The response audio on the data plane, in order. */
  function Spoken(out: seq<Outbound>): seq<Byte> {
    if out == [] then []
    else
      var last := out[|out| - 1];
      Spoken(out[..|out| - 1]) + if last.ResponseFrame? then last.bytes else []
  }

  /** The clip audio on the data plane, in order. */
  function Closing(out: seq<Outbound>): seq<Byte> {
    if out == [] then []
    else
      var last := out[|out| - 1];
      Closing(out[..|out| - 1]) + if last.ClipFrame? then last.bytes else []
  }

  lemma OneMore(out: seq<Outbound>, o: Outbound)
    ensures Spoken(out + [o]) == Spoken(out) + if o.ResponseFrame? then o.bytes else []
    ensures Closing(out + [o]) == Closing(out) + if o.ClipFrame? then o.bytes else []
  {
    assert (out + [o])[..|out|] == out;
  }

  lemma OneMoreFrame(front: seq<seq<Byte>>, last: seq<Byte>)
    ensures AsClip(front + [last]) == AsClip(front) + [ClipFrame(last)]
    ensures AsResponse(front + [last]) == AsResponse(front) + [ResponseFrame(last)]
  {
  }

  lemma NoFrames(out: seq<Outbound>)
    ensures out + AsClip([]) == out && out + AsResponse([]) == out
  {
  }

  lemma {:induction false} ClipHeard(out: seq<Outbound>, frames: seq<seq<Byte>>)
    ensures Spoken(out + AsClip(frames)) == Spoken(out)
    ensures Closing(out + AsClip(frames)) == Closing(out) + Flatten(frames)
    decreases |frames|
  {
    hide Spoken, Closing, AsClip;
    if frames == [] {
      NoFrames(out);
    } else {
      var front, last := frames[..|frames| - 1], frames[|frames| - 1];
      assert frames == front + [last];
      hide Flatten;
      ClipHeard(out, front);
      OneMore(out + AsClip(front), ClipFrame(last));
      OneMoreFrame(front, last);
      FlattenAppend(front, last);
      Joined(out, AsClip(front), [ClipFrame(last)]);
      Joined(Closing(out), Flatten(front), last);
    }
  }

  lemma {:induction false} ResponseHeard(out: seq<Outbound>, frames: seq<seq<Byte>>)
    ensures Spoken(out + AsResponse(frames)) == Spoken(out) + Flatten(frames)
    ensures Closing(out + AsResponse(frames)) == Closing(out)
    decreases |frames|
  {
    hide Spoken, Closing, AsResponse;
    if frames == [] {
      NoFrames(out);
    } else {
      var front, last := frames[..|frames| - 1], frames[|frames| - 1];
      assert frames == front + [last];
      hide Flatten;
      ResponseHeard(out, front);
      OneMore(out + AsResponse(front), ResponseFrame(last));
      OneMoreFrame(front, last);
      FlattenAppend(front, last);
      Joined(out, AsResponse(front), [ResponseFrame(last)]);
      Joined(Spoken(out), Flatten(front), last);
    }
  }

  /** The response an input makes the session play. */
  function Answered(cfg: Config, st: SessionState, step: Step): seq<Byte> {
    if step.Deliver? && step.ev.Response? && step.ev.ok && st == AwaitingResponse && cfg.dataWired
    then Flatten(step.ev.frames) else []
  }

  /** The clip an input makes the session close with, if it does. */
  function ClosesWith(cfg: Config, st: SessionState, step: Step): Option<seq<Byte>> {
    if !step.Deliver? || !step.ev.TimerFired? then None
    else
      match step.ev.timer
      case TIdle => if InProgress(st) then Some(cfg.farewell) else None
      case TUtterance => if InProgress(st) then Some(cfg.forcedStop) else None
      case TTurn => if InProgress(st) then Some(cfg.forcedStop) else None
      case TResponse => if st == AwaitingResponse then Some(cfg.farewell) else None
      case _ => None
  }

  lemma TerminateHeard(cfg: Config, v: View, clip: seq<Byte>)
    ensures var o := TerminateWithClip(cfg, v, clip).out.audioOut;
            Spoken(o) == Spoken(v.out.audioOut)
            && Closing(o) == Closing(v.out.audioOut) + if cfg.dataWired then clip else []
  {
    ClipHeard(v.out.audioOut, ClipFrames(clip));
    SessionObject.ClipFramesWhole(clip);
  }

  lemma TimerHeard(cfg: Config, v: View, t: Timer, at: nat)
    requires Enabled(v, Deliver(TimerFired(t), at))
    ensures var n, o := Next(cfg, v, Deliver(TimerFired(t), at)).out.audioOut, v.out.audioOut;
            var clip := ClosesWith(cfg, v.m.state, Deliver(TimerFired(t), at));
            Spoken(n) == Spoken(o)
            && Closing(n) == Closing(o) + if cfg.dataWired && clip.Some? then clip.value else []
  {
    hide FlushTranscripts, CompleteTurn, TerminateWithClip, Spoken, Closing, Loop, HandleVAD, HandleSTTResult,
      HandleResponseReady, HandleDataFrame, HandlePlayoutEcho, HandleMarkEcho, HandleControlEvent;
    var a := v.(m := Arrive(v.m, TimerFired(t), at));
    match t
    case TIdle =>
      CompleteSilent(a, IdleTimeout);
      TerminateHeard(cfg, CompleteTurn(a, IdleTimeout), cfg.farewell);
    case TUtterance =>
      CompleteSilent(a, UtteranceCap);
      TerminateHeard(cfg, CompleteTurn(a, UtteranceCap), cfg.forcedStop);
    case TTurn =>
      CompleteSilent(a, TurnCap);
      TerminateHeard(cfg, CompleteTurn(a, TurnCap), cfg.forcedStop);
    case TResponse =>
      var b := a.(m := Cancel(a.m, TBedTick));
      CompleteSilent(b, ResponseCap);
      TerminateHeard(cfg, CompleteTurn(b, ResponseCap), cfg.farewell);
    case TBedTick =>
      if cfg.BedPlays() {
        OneMore(v.out.audioOut, BedChunk(Loop(cfg.thinking, v.out.bedOffset, BED_CHUNK_BYTES)));
      }
    case TMarkEcho =>
  }

  lemma CompleteSilent(v: View, trigger: Trigger)
    ensures CompleteTurn(v, trigger).out == v.out
  {
  }

  lemma InputHeard(cfg: Config, v: View, ev: Event)
    requires !ev.TimerFired?
    ensures var n, o := Handle(cfg, v, Lookup(v.m.state, SourceOf(ev)), ev).out.audioOut, v.out.audioOut;
            Spoken(n) == Spoken(o) + Answered(cfg, v.m.state, Deliver(ev, v.m.now)) && Closing(n) == Closing(o)
  {
    hide FlushTranscripts, TerminateWithClip, HandleBedTick, HandleResponseTimeout, Spoken, Closing, TakeFrame,
      DispatchSTT, TrimSpace, Flatten, MarkEchoTimeout;
    if ev.Response? {
      ResponseHeard(v.out.audioOut, ev.frames);
    }
  }

  /** One step adds to the caller's ear exactly the response it accepts, or the clip it closes with, or neither. */
  lemma StepHeard(cfg: Config, v: View, step: Step)
    requires Enabled(v, step)
    ensures var n, o := Next(cfg, v, step).out.audioOut, v.out.audioOut;
            var clip := ClosesWith(cfg, v.m.state, step);
            Spoken(n) == Spoken(o) + Answered(cfg, v.m.state, step)
            && Closing(n) == Closing(o) + if cfg.dataWired && clip.Some? then clip.value else []
  {
    hide Handle, Lookup, Spoken, Closing, Flatten;
    match step
    case Deliver(ev, at) =>
      if ev.TimerFired? {
        TimerHeard(cfg, v, ev.timer, at);
      } else {
        InputHeard(cfg, v.(m := v.m.(now := at)), ev);
      }
    case _ =>
  }

  /** A clip is played exactly when the session starts waiting for its farewell mark. */
  lemma ClosesExactly(cfg: Config, v: View, step: Step)
    requires Inv(cfg, v) && Enabled(v, step)
    ensures ClosesWith(cfg, v.m.state, step).Some? <==>
              v.m.state != AwaitingMarkEcho && Next(cfg, v, step).m.state == AwaitingMarkEcho
    ensures v.m.state == AwaitingMarkEcho || v.m.state == Closed ==>
              Next(cfg, v, step).m.state == AwaitingMarkEcho || Next(cfg, v, step).m.state == Closed
  {
    hide Spoken, Closing, FlushTranscripts, AudioConserved, RequestsMatch, TextConserved, BedInStep, Rounds,
      SendMark, SendAudio, SendClear, SendBedChunk, AsClip, ClipFrames, MarkEchoTimeout, TakeFrame, DispatchSTT,
      TrimSpace, AsResponse;
    match step
    case Deliver(ev, at) =>
      match ev {
        case Data(_) =>
        case Control(_, _) =>
        case Vad(_) =>
        case Stt(_, _, _, _) =>
        case Response(_, _) =>
        case TimerFired(t) => match t case _ =>
      }
    case _ =>
  }

  /** The responses a run accepts, in order. */
  ghost function Replies(cfg: Config, v: View, steps: seq<Step>): seq<Byte>
    requires Legal(cfg, v, steps)
    decreases |steps|
  {
    if steps == [] then []
    else Answered(cfg, v.m.state, steps[0]) + Replies(cfg, Next(cfg, v, steps[0]), steps[1..])
  }

  /** Every accepted response reaches the caller once, whole and in order, over any run. */
  lemma {:induction false} ResponsesHeardOnce(cfg: Config, v: View, steps: seq<Step>)
    requires Legal(cfg, v, steps)
    ensures Spoken(After(cfg, v, steps).out.audioOut) == Spoken(v.out.audioOut) + Replies(cfg, v, steps)
    decreases |steps|
  {
    hide Next, Enabled, Spoken, Closing, Answered;
    if steps != [] {
      var w := Next(cfg, v, steps[0]);
      StepHeard(cfg, v, steps[0]);
      ResponsesHeardOnce(cfg, w, steps[1..]);
      Joined(Spoken(v.out.audioOut), Answered(cfg, v.m.state, steps[0]), Replies(cfg, w, steps[1..]));
    }
  }

  /** No clip before the end, and then at most one, whole. */
  ghost predicate OneClip(cfg: Config, v: View) {
    var heard := Closing(v.out.audioOut);
    && (v.m.state != AwaitingMarkEcho && v.m.state != Closed ==> heard == [])
    && (heard == [] || heard == cfg.farewell || heard == cfg.forcedStop)
  }

  lemma {:induction false} OneClipThroughout(cfg: Config, v: View, steps: seq<Step>)
    requires Inv(cfg, v) && OneClip(cfg, v) && Legal(cfg, v, steps)
    ensures OneClip(cfg, After(cfg, v, steps))
    decreases |steps|
  {
    hide Next, Enabled, Closing, ClosesWith, Inv;
    if steps != [] {
      StepHeard(cfg, v, steps[0]);
      ClosesExactly(cfg, v, steps[0]);
      ClipOnlyWhenOpen(cfg, v.m.state, steps[0]);
      InvPreserved(cfg, v, steps[0]);
      OneClipThroughout(cfg, Next(cfg, v, steps[0]), steps[1..]);
    }
  }

  lemma ClipOnlyWhenOpen(cfg: Config, st: SessionState, step: Step)
    ensures ClosesWith(cfg, st, step).Some? ==>
              st != AwaitingMarkEcho && st != Closed
              && ClosesWith(cfg, st, step).value in [cfg.farewell, cfg.forcedStop]
  {
  }

  /** Over any run of a call the caller hears at most one closing clip, and hears it whole. */
  lemma AtMostOneClip(cfg: Config, at: nat, steps: seq<Step>)
    requires Legal(cfg, Started(cfg, at), steps)
    ensures OneClip(cfg, After(cfg, Started(cfg, at), steps))
  {
    StartedFits(cfg, at);
    OneClipThroughout(cfg, Started(cfg, at), steps);
  }
}
