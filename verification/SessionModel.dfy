/**
 The turn-taking session: its vocabulary, its total (state, source) table and what each
 handler does to the session, as functions on a record of everything the session owns.

 Timers live on a virtual clock. `live` holds, for every timer name whose latest command
 was an arm that has not been handled yet, the instant it is due. A completion is handled
 only while its name is still in `live`: that is the guarantee TimerFacility.dfy proves.
 */
module SessionModel {
  import opened Common
  import opened CyclicClip
  import opened Telephony

  datatype SessionState =
    | Idle | Listening | AwaitingFullResult | AwaitingResponse
    | AwaitingResponsePlayout | Terminating | AwaitingMarkEcho | Closed

  /** The states the idle, utterance and turn caps are wired into. */
  predicate InProgress(st: SessionState) {
    st == Idle || st == Listening || st == AwaitingFullResult
  }

  datatype Source =
    | TwilioData | TwilioControl | VADEvent | STTResult | IdleTimer | MarkEchoTimer
    | UtteranceTimer | ResponseReady | ResponseTimer | TurnTimer | BedTick

  datatype Timer = TIdle | TMarkEcho | TUtterance | TResponse | TTurn | TBedTick

  /** A timer that is not pending, or the instant a pending one is due. */
  datatype Pending = Off | At(due: nat)

  /** The six named timers: when each pending one is due. */
  datatype Timers = Timers(
    idle: Pending, markEcho: Pending, utterance: Pending,
    response: Pending, turn: Pending, bedTick: Pending)
  {
    function Due(t: Timer): Pending {
      match t
      case TIdle => idle
      case TMarkEcho => markEcho
      case TUtterance => utterance
      case TResponse => response
      case TTurn => turn
      case TBedTick => bedTick
    }

    function With(t: Timer, due: Pending): Timers {
      match t
      case TIdle => this.(idle := due)
      case TMarkEcho => this.(markEcho := due)
      case TUtterance => this.(utterance := due)
      case TResponse => this.(response := due)
      case TTurn => this.(turn := due)
      case TBedTick => this.(bedTick := due)
    }

    predicate Armed(t: Timer) { Due(t).At? }
  }

  datatype Trigger =
    | Stopword | SilenceTurnEnd | IdleTimeout | UtteranceCap | TurnCap | CallEnd | ResponseCap

  datatype Event =
    | Data(frame: seq<Byte>)
    | Control(kind: string, markName: string)
    | Vad(vad: VoiceKind)
    | Stt(sessionID: string, requestID: int, fullPass: bool, text: string)
    | Response(ok: bool, frames: seq<seq<Byte>>)
    | TimerFired(timer: Timer)

  datatype Turn = Turn(parts: seq<string>, trigger: Trigger)

  datatype STTRequest = STTRequest(requestID: nat, audio: seq<Byte>)

  datatype Outbound =
    | ClipFrame(bytes: seq<Byte>) | BedChunk(bytes: seq<Byte>) | ResponseFrame(bytes: seq<Byte>)

  datatype CtlOut = Mark(name: string) | Clear

  const MAX_SILENCE_MS := 15000
  const MAX_UTTERANCE_MS := 45000
  const MAX_TURN_MS := 60000
  const MAX_RESPONSE_MS := 45000
  const MARK_ECHO_GRACE_MS := 500
  const BED_TICK_MS := 200
  const BED_CHUNK_BYTES := BED_TICK_MS * SAMPLE_RATE_HZ / 1000
  const STT_DISPATCH_DEPTH := 4
  const KIND_STOP := "stop"
  const KIND_MARK := "mark"
  const FAREWELL_MARK := "farewell"
  const RESPONSE_MARK := "response"

  /** What a session is built with: overrides, clips, policy and which planes are wired. */
  datatype Config = Config(
    callSID: string,
    idleTimeoutMS: int, utteranceTimeoutMS: int, turnTimeoutMS: int, responseTimeoutMS: int,
    farewell: seq<Byte>, forcedStop: seq<Byte>, thinking: seq<Byte>,
    policy: Option<string -> bool>,
    dataWired: bool, ctlWired: bool, sttWired: bool)
  {
    function Resolved(override: int, default: nat): (ms: nat) {
      if override > 0 then override else default
    }
    function IdleMS(): nat { Resolved(idleTimeoutMS, MAX_SILENCE_MS) }
    function UtteranceMS(): nat { Resolved(utteranceTimeoutMS, MAX_UTTERANCE_MS) }
    function TurnMS(): nat { Resolved(turnTimeoutMS, MAX_TURN_MS) }
    function ResponseMS(): nat { Resolved(responseTimeoutMS, MAX_RESPONSE_MS) }
    predicate IsStopword(text: string) { policy.Some? && policy.value(text) }
    predicate BedPlays() { dataWired && |thinking| > 0 }
  }

  /** The machine itself: the state, the clock, the pending timers and the two turn flags. */
  datatype Machine = Machine(
    state: SessionState, now: nat, live: Timers, turnActive: bool, turnEndPending: bool)

  /** Caller audio: what was taken, what is buffered, and the passes dispatched from it. */
  datatype CallerAudio = CallerAudio(
    forwardCh: seq<seq<Byte>>, turnBuf: seq<Byte>, taken: seq<Byte>,
    passes: seq<seq<Byte>>, sttReqID: nat, sttQueue: seq<STTRequest>)

  /** Caller text: accepted transcripts, the open turn and the completed ones. */
  datatype CallerText = CallerText(
    turnTranscripts: seq<string>, turns: seq<Turn>, accepted: seq<string>)

  /** What the session wrote: audio and control planes, the bed's position, transport closes. */
  datatype Output = Output(
    bedOffset: nat, bedSent: seq<Byte>, audioOut: seq<Outbound>, ctlOut: seq<CtlOut>,
    transportCloses: nat)

  /** Everything one session owns. `taken`, `passes`, `accepted` and `bedSent` are history:
      no handler reads them. */
  datatype View = View(m: Machine, audio: CallerAudio, text: CallerText, out: Output)

  // ---- small pure helpers ------------------------------------------------------------

  function PlayoutMS(bytes: nat): nat { bytes * 1000 / SAMPLE_RATE_HZ }

  function MarkEchoTimeout(bytes: nat): nat { PlayoutMS(bytes) + MARK_ECHO_GRACE_MS }

  /** The characters with Unicode's White_Space property. */
  predicate IsSpace(c: char) {
    || c == ' ' || ('\t' <= c <= '\r') || c == '\U{0085}' || c == '\U{00A0}' || c == '\U{1680}'
    || ('\U{2000}' <= c <= '\U{200A}') || c == '\U{2028}' || c == '\U{2029}' || c == '\U{202F}'
    || c == '\U{205F}' || c == '\U{3000}'
  }

  function TrimLeft(s: string): string {
    if s != "" && IsSpace(s[0]) then TrimLeft(s[1..]) else s
  }

  function TrimRight(s: string): string {
    if s != "" && IsSpace(s[|s| - 1]) then TrimRight(s[..|s| - 1]) else s
  }

  function TrimSpace(s: string): string { TrimRight(TrimLeft(s)) }

  /** A clip cut into wire frames; only the last may be short. */
  function ClipFrames(clip: seq<Byte>): seq<seq<Byte>> {
    if |clip| <= FRAME_BYTES then (if clip == [] then [] else [clip])
    else [clip[..FRAME_BYTES]] + ClipFrames(clip[FRAME_BYTES..])
  }

  function AsClip(frames: seq<seq<Byte>>): seq<Outbound> {
    seq(|frames|, i requires 0 <= i < |frames| => ClipFrame(frames[i]))
  }

  function AsResponse(frames: seq<seq<Byte>>): seq<Outbound> {
    seq(|frames|, i requires 0 <= i < |frames| => ResponseFrame(frames[i]))
  }

  // ---- the table ---------------------------------------------------------------------

  datatype Handler =
    | Unexpected | NotImplemented | Absorb | ClosedAbsorb
    | DataFrame | ControlEvent | ListeningVAD | AwaitingFullResultVAD | SttResult
    | IdleTimeoutH | UtteranceTimeout | TurnTimeout | ResponseReadyH | ResponseTimeout
    | BedTickH | ResponsePlayoutEcho | ResponsePlayoutBackstop
    | MarkEchoControl | MarkEchoTimeoutH

  /** The handler each (state, source) pair ends up with once the table is built. */
  function Lookup(st: SessionState, src: Source): Handler {
    match st
    case Terminating => NotImplemented
    case Closed => ClosedAbsorb
    case AwaitingMarkEcho =>
      (match src
       case TwilioControl => MarkEchoControl
       case MarkEchoTimer => MarkEchoTimeoutH
       case TwilioData => Absorb
       case VADEvent => Absorb
       case STTResult => Absorb
       case _ => NotImplemented)
    case AwaitingResponse =>
      (match src
       case TwilioData => DataFrame
       case TwilioControl => ControlEvent
       case STTResult => SttResult
       case ResponseReady => ResponseReadyH
       case ResponseTimer => ResponseTimeout
       case BedTick => BedTickH
       case _ => Unexpected)
    case AwaitingResponsePlayout =>
      (match src
       case TwilioData => DataFrame
       case TwilioControl => ResponsePlayoutEcho
       case STTResult => SttResult
       case MarkEchoTimer => ResponsePlayoutBackstop
       case _ => Unexpected)
    case _ => // Idle, Listening, AwaitingFullResult: the in-progress states
      (match src
       case TwilioData => DataFrame
       case TwilioControl => ControlEvent
       case VADEvent =>
         if st == Listening then ListeningVAD
         else if st == AwaitingFullResult then AwaitingFullResultVAD
         else Unexpected
       case STTResult => SttResult
       case IdleTimer => IdleTimeoutH
       case UtteranceTimer => UtteranceTimeout
       case TurnTimer => TurnTimeout
       case _ => Unexpected)
  }

  function TimerSource(t: Timer): Source {
    match t
    case TIdle => IdleTimer
    case TMarkEcho => MarkEchoTimer
    case TUtterance => UtteranceTimer
    case TResponse => ResponseTimer
    case TTurn => TurnTimer
    case TBedTick => BedTick
  }

  function SourceOf(ev: Event): Source {
    match ev
    case Data(_) => TwilioData
    case Control(_, _) => TwilioControl
    case Vad(_) => VADEvent
    case Stt(_, _, _, _) => STTResult
    case Response(_, _) => ResponseReady
    case TimerFired(t) => TimerSource(t)
  }

  // ---- effects shared by several handlers ----------------------------------------------

  function Arm(m: Machine, t: Timer, ms: nat): Machine {
    m.(live := m.live.With(t, At(m.now + ms)))
  }

  function Cancel(m: Machine, t: Timer): Machine { m.(live := m.live.With(t, Off)) }

  function FlushTranscripts(x: CallerText, trigger: Trigger): CallerText {
    if x.turnTranscripts == [] then x
    else x.(turns := x.turns + [Turn(x.turnTranscripts, trigger)], turnTranscripts := [])
  }

  function TurnOver(m: Machine): Machine {
    Cancel(m.(turnActive := false, turnEndPending := false), TTurn)
  }

  function CompleteTurn(v: View, trigger: Trigger): View {
    v.(text := FlushTranscripts(v.text, trigger), m := TurnOver(v.m))
  }

  function SendMark(cfg: Config, o: Output, name: string): Output {
    if cfg.ctlWired then o.(ctlOut := o.ctlOut + [Mark(name)]) else o
  }

  function SendClear(cfg: Config, o: Output): Output {
    if cfg.ctlWired then o.(ctlOut := o.ctlOut + [Clear]) else o
  }

  function SendAudio(cfg: Config, o: Output, frames: seq<Outbound>): Output {
    if cfg.dataWired then o.(audioOut := o.audioOut + frames) else o
  }

  function TerminateWithClip(cfg: Config, v: View, clip: seq<Byte>): View {
    v.(m := Arm(v.m.(state := AwaitingMarkEcho), TMarkEcho, MarkEchoTimeout(|clip|)),
       out := SendMark(cfg, SendAudio(cfg, v.out, AsClip(ClipFrames(clip))), FAREWELL_MARK))
  }

  function EnterAwaitingResponse(cfg: Config, v: View): View {
    v.(m := Arm(Arm(Cancel(v.m, TIdle), TResponse, cfg.ResponseMS()), TBedTick, BED_TICK_MS)
            .(state := AwaitingResponse),
       out := v.out.(bedOffset := 0, bedSent := []))
  }

  function OnUtteranceEnd(cfg: Config, m: Machine): Machine {
    Arm(Cancel(m, TUtterance), TIdle, cfg.IdleMS())
  }

  /** A full pass over the utterance: numbered, and queued unless the channel is full. */
  function DispatchSTT(cfg: Config, a: CallerAudio): CallerAudio {
    if !cfg.sttWired then a
    else
      var id := a.sttReqID + 1;
      a.(sttReqID := id,
         sttQueue := if |a.sttQueue| < STT_DISPATCH_DEPTH
                     then a.sttQueue + [STTRequest(id, a.turnBuf)] else a.sttQueue)
  }

  function CloseTransport(v: View): View {
    v.(m := Cancel(v.m, TMarkEcho).(state := Closed),
       out := v.out.(transportCloses := v.out.transportCloses + 1))
  }

  function BackToListening(cfg: Config, m: Machine): Machine {
    Arm(m, TIdle, cfg.IdleMS()).(state := Listening)
  }

  function SendBedChunk(cfg: Config, o: Output): Output {
    if !cfg.BedPlays() then o
    else
      var chunk := Loop(cfg.thinking, o.bedOffset, BED_CHUNK_BYTES);
      o.(audioOut := o.audioOut + [BedChunk(chunk)],
         bedOffset := (o.bedOffset + BED_CHUNK_BYTES) % |cfg.thinking|,
         bedSent := o.bedSent + chunk)
  }

  // ---- the handlers --------------------------------------------------------------------

  function TakeFrame(a: CallerAudio, frame: seq<Byte>): CallerAudio {
    a.(turnBuf := a.turnBuf + frame,
       taken := a.taken + frame,
       forwardCh := if |a.forwardCh| < PLANE_DEPTH then a.forwardCh + [frame] else a.forwardCh)
  }

  function HandleDataFrame(v: View, frame: seq<Byte>): View {
    v.(audio := TakeFrame(v.audio, frame),
       m := v.m.(state := if v.m.state == Idle then Listening else v.m.state))
  }

  function HandleControlEvent(v: View, kind: string): View {
    if kind != KIND_STOP then v
    else
      var v1 := CompleteTurn(v, CallEnd);
      v1.(m := v1.m.(state := Closed))
  }

  function HandleSpeechOnset(cfg: Config, m: Machine): Machine {
    var m1 := Arm(Cancel(m, TIdle), TUtterance, cfg.UtteranceMS());
    (if !m.turnActive then Arm(m1, TTurn, cfg.TurnMS()) else m1).(turnActive := true)
  }

  function DispatchFullPass(cfg: Config, v: View): View {
    v.(m := OnUtteranceEnd(cfg, v.m).(state := AwaitingFullResult),
       audio := DispatchSTT(cfg, v.audio)
                  .(passes := v.audio.passes + [v.audio.turnBuf], turnBuf := []))
  }

  function HandleVAD(cfg: Config, v: View, kind: VoiceKind): View {
    match kind
    case Speech => v.(m := HandleSpeechOnset(cfg, v.m))
    case Silence => v
    case TurnEnd =>
      if v.m.state == AwaitingFullResult then v.(m := v.m.(turnEndPending := true))
      else EnterAwaitingResponse(cfg, CompleteTurn(v, SilenceTurnEnd))
    case EndOfUtterance =>
      if v.m.state == AwaitingFullResult then v.(m := OnUtteranceEnd(cfg, v.m))
      else DispatchFullPass(cfg, v)
  }

  function Accept(x: CallerText, said: string): CallerText {
    x.(turnTranscripts := x.turnTranscripts + [said], accepted := x.accepted + [said])
  }

  function HandleSTTResult(cfg: Config, v: View, ev: Event): View
    requires ev.Stt?
  {
    if ev.sessionID != cfg.callSID || ev.requestID != v.audio.sttReqID || !ev.fullPass then v
    else
      var stop := cfg.IsStopword(ev.text);
      var done := stop || v.m.turnEndPending;
      var heard := if stop then v else v.(text := Accept(v.text, TrimSpace(ev.text)));
      var v1 :=
        if stop then CompleteTurn(heard, Stopword)
        else if v.m.turnEndPending then CompleteTurn(heard, SilenceTurnEnd)
        else heard;
      if v.m.state != AwaitingFullResult then v1
      else if done then EnterAwaitingResponse(cfg, v1)
      else v1.(m := v1.m.(state := Listening))
  }

  function HandleResponseReady(cfg: Config, v: View, ev: Event): View
    requires ev.Response?
  {
    var m1 := Cancel(Cancel(v.m, TResponse), TBedTick);
    var o1 := SendClear(cfg, v.out);
    if !ev.ok then v.(m := BackToListening(cfg, m1), out := o1)
    else
      v.(m := Arm(m1, TMarkEcho, MarkEchoTimeout(|Flatten(ev.frames)|))
              .(state := AwaitingResponsePlayout),
         out := SendMark(cfg, SendAudio(cfg, o1, AsResponse(ev.frames)), RESPONSE_MARK))
  }

  function HandlePlayoutEcho(cfg: Config, v: View, ev: Event): View
    requires ev.Control?
  {
    if ev.kind != KIND_MARK || ev.markName != RESPONSE_MARK then v
    else v.(m := BackToListening(cfg, Cancel(v.m, TMarkEcho)))
  }

  function HandleMarkEcho(v: View, ev: Event): View
    requires ev.Control?
  {
    if ev.kind != KIND_MARK || ev.markName != FAREWELL_MARK then v else CloseTransport(v)
  }

  function HandleResponseTimeout(cfg: Config, v: View): View {
    TerminateWithClip(cfg, CompleteTurn(v.(m := Cancel(v.m, TBedTick)), ResponseCap), cfg.farewell)
  }

  function HandleBedTick(cfg: Config, v: View): View {
    v.(m := Arm(v.m, TBedTick, BED_TICK_MS), out := SendBedChunk(cfg, v.out))
  }

  function Handle(cfg: Config, v: View, h: Handler, ev: Event): View
    requires h == Lookup(v.m.state, SourceOf(ev))
  {
    match h
    case DataFrame => HandleDataFrame(v, ev.frame)
    case ControlEvent => HandleControlEvent(v, ev.kind)
    case ListeningVAD => HandleVAD(cfg, v, ev.vad)
    case AwaitingFullResultVAD => HandleVAD(cfg, v, ev.vad)
    case SttResult => HandleSTTResult(cfg, v, ev)
    case IdleTimeoutH => TerminateWithClip(cfg, CompleteTurn(v, IdleTimeout), cfg.farewell)
    case UtteranceTimeout => TerminateWithClip(cfg, CompleteTurn(v, UtteranceCap), cfg.forcedStop)
    case TurnTimeout => TerminateWithClip(cfg, CompleteTurn(v, TurnCap), cfg.forcedStop)
    case ResponseReadyH => HandleResponseReady(cfg, v, ev)
    case ResponseTimeout => HandleResponseTimeout(cfg, v)
    case BedTickH => HandleBedTick(cfg, v)
    case ResponsePlayoutEcho => HandlePlayoutEcho(cfg, v, ev)
    case ResponsePlayoutBackstop => v.(m := BackToListening(cfg, v.m))
    case MarkEchoControl => HandleMarkEcho(v, ev)
    case MarkEchoTimeoutH => CloseTransport(v)
    case _ => v // Unexpected, NotImplemented, Absorb, ClosedAbsorb
  }

  // ---- one step of the world -------------------------------------------------------------

  /** An input handled at an instant, or one of the two drains freeing a channel slot. */
  datatype Step = Deliver(ev: Event, at: nat) | ForwardDrain | STTDrain

  /** A timer is handled only while it is live and only once it is due. */
  predicate Enabled(v: View, step: Step) {
    match step
    case Deliver(ev, at) =>
      at >= v.m.now &&
      (ev.TimerFired? ==> v.m.live.Armed(ev.timer) && v.m.live.Due(ev.timer).due <= at)
    case ForwardDrain => v.audio.forwardCh != []
    case STTDrain => v.audio.sttQueue != []
  }

  /** The clock moves to `at`, and a timer that fired is no longer pending. */
  function Arrive(m: Machine, ev: Event, at: nat): Machine {
    m.(now := at, live := if ev.TimerFired? then m.live.With(ev.timer, Off) else m.live)
  }

  function Next(cfg: Config, v: View, step: Step): View
    requires Enabled(v, step)
  {
    match step
    case Deliver(ev, at) =>
      Handle(cfg, v.(m := Arrive(v.m, ev, at)), Lookup(v.m.state, SourceOf(ev)), ev)
    case ForwardDrain => v.(audio := v.audio.(forwardCh := v.audio.forwardCh[1..]))
    case STTDrain => v.(audio := v.audio.(sttQueue := v.audio.sttQueue[1..]))
  }

  /** A started session: idle, with only the idle timer running. */
  function Started(cfg: Config, at: nat): View {
    View(Machine(Idle, at, Timers(At(at + cfg.IdleMS()), Off, Off, Off, Off, Off), false, false),
         CallerAudio([], [], [], [], 0, []), CallerText([], [], []), Output(0, [], [], [], 0))
  }

  ghost predicate Legal(cfg: Config, v: View, steps: seq<Step>)
    decreases |steps|
  {
    steps == [] ||
    (Enabled(v, steps[0]) && Legal(cfg, Next(cfg, v, steps[0]), steps[1..]))
  }

  /** The view a legal run reaches. */
  ghost function After(cfg: Config, v: View, steps: seq<Step>): View
    requires Legal(cfg, v, steps)
    decreases |steps|
  {
    if steps == [] then v else After(cfg, Next(cfg, v, steps[0]), steps[1..])
  }
}
