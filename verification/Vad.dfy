/**
 Voice activity: the hysteresis machine over per-window probabilities, the windower that
 re-chunks decoded audio, and the loop that runs one after the other.
 */
module Vad {
  import opened Common
  import opened Telephony
  import CyclicClip

  datatype VADEvent = VADEvent(
    kind: VoiceKind, prob: real, voicedCount: nat, silenceCount: nat, windowIndex: nat, streamWindowIndex: nat)

  datatype VADConfig = VADConfig(
    windowSize: int, speechThresh: real, silenceThresh: real,
    endSilenceMS: int, sampleRateHz: int, turnEndSilenceMS: int)

  const DEFAULT_CONFIG := VADConfig(256, 0.5, 0.35, 700, 8000, 5000)

  /** Every non-positive field takes its default. */
  function WithDefaults(c: VADConfig): VADConfig {
    var d := DEFAULT_CONFIG;
    VADConfig(
      if c.windowSize <= 0 then d.windowSize else c.windowSize,
      if c.speechThresh <= 0.0 then d.speechThresh else c.speechThresh,
      if c.silenceThresh <= 0.0 then d.silenceThresh else c.silenceThresh,
      if c.endSilenceMS <= 0 then d.endSilenceMS else c.endSilenceMS,
      if c.sampleRateHz <= 0 then d.sampleRateHz else c.sampleRateHz,
      if c.turnEndSilenceMS <= 0 then d.turnEndSilenceMS else c.turnEndSilenceMS)
  }

  ghost predicate Resolved(c: VADConfig) {
    c.windowSize > 0 && c.endSilenceMS > 0 && c.sampleRateHz > 0 && c.turnEndSilenceMS > 0
  }

  function WindowMS(c: VADConfig): nat
    requires Resolved(c)
  {
    c.windowSize * 1000 / c.sampleRateHz
  }

  function WindowsToCross(thresholdMS: nat, windowMS: nat): nat {
    if windowMS <= 0 then 0 else (thresholdMS + windowMS - 1) / windowMS
  }

  /** The rounding rule is a ceiling: the count reaches the threshold and one fewer does not. */
  lemma WindowsToCrossIsCeiling(thresholdMS: nat, windowMS: nat)
    requires thresholdMS > 0 && windowMS > 0
    ensures var k := WindowsToCross(thresholdMS, windowMS);
            k >= 1 && k * windowMS >= thresholdMS && (k - 1) * windowMS < thresholdMS
  {
    var k := WindowsToCross(thresholdMS, windowMS);
    assert (k - 1) * windowMS == k * windowMS - windowMS;
    assert windowMS * k == k * windowMS;
  }

  function EndWindows(c: VADConfig): nat
    requires Resolved(c)
  {
    WindowsToCross(c.endSilenceMS, WindowMS(c))
  }

  function TurnEndWindows(c: VADConfig): nat
    requires Resolved(c)
  {
    WindowsToCross(c.turnEndSilenceMS, WindowMS(c))
  }

  /**
   A default is taken exactly where a field is not positive: resolving changes no positive
   field, leaves every count and rate positive, and resolves nothing a second time.
   */
  lemma DefaultsFillTheRest(c: VADConfig)
    ensures var r := WithDefaults(c);
            && Resolved(r) && r.speechThresh > 0.0 && r.silenceThresh > 0.0 && WithDefaults(r) == r
            && (c.windowSize > 0 ==> r.windowSize == c.windowSize)
            && (c.speechThresh > 0.0 ==> r.speechThresh == c.speechThresh)
            && (c.silenceThresh > 0.0 ==> r.silenceThresh == c.silenceThresh)
            && (c.endSilenceMS > 0 ==> r.endSilenceMS == c.endSilenceMS)
            && (c.sampleRateHz > 0 ==> r.sampleRateHz == c.sampleRateHz)
            && (c.turnEndSilenceMS > 0 ==> r.turnEndSilenceMS == c.turnEndSilenceMS)
    ensures WithDefaults(VADConfig(0, 0.0, 0.0, 0, 0, 0)) == DEFAULT_CONFIG
  {
  }

  /**
   The silent windows that end an utterance, and a turn, are the fewest whose length reaches
   the bound, a window's length being its samples' in whole milliseconds; a window too short
   to have one makes both counts zero.
   */
  lemma SilenceMeasuredInWindows(c: VADConfig, ms: nat)
    requires Resolved(c) && ms * c.sampleRateHz <= c.windowSize * 1000 < (ms + 1) * c.sampleRateHz
    ensures ms == 0 ==> EndWindows(c) == TurnEndWindows(c) == 0
    ensures var e, t := EndWindows(c), TurnEndWindows(c);
            ms > 0 ==>
            && e * ms >= c.endSilenceMS && (e - 1) * ms < c.endSilenceMS
            && t * ms >= c.turnEndSilenceMS && (t - 1) * ms < c.turnEndSilenceMS
  {
    CyclicClip.ModUnique(c.windowSize * 1000, ms, c.windowSize * 1000 - ms * c.sampleRateHz, c.sampleRateHz);
    if ms > 0 {
      WindowsToCrossIsCeiling(c.endSilenceMS, ms);
      WindowsToCrossIsCeiling(c.turnEndSilenceMS, ms);
    }
  }

  // ---- the machine -------------------------------------------------------------------------

  datatype Machine = Machine(
    speaking: bool, silenceCount: nat, voicedCount: nat, turnEndFired: bool,
    windowIndex: nat, streamWindow: nat)

  const FRESH := Machine(false, 0, 0, false, 0, 0)

  function Snapshot(m: Machine, kind: VoiceKind, prob: real): VADEvent {
    VADEvent(kind, prob, m.voicedCount, m.silenceCount, m.windowIndex, m.streamWindow)
  }

  function Step(c: VADConfig, m0: Machine, prob: real): (Machine, Option<VADEvent>)
    requires Resolved(c)
  {
    var m := m0.(streamWindow := m0.streamWindow + 1);
    if !m.speaking then
      if prob >= c.speechThresh then
        var n := m.(speaking := true, silenceCount := 0, voicedCount := 1, turnEndFired := false, windowIndex := 0);
        (n, Some(Snapshot(n, Speech, prob)))
      else if m.turnEndFired || prob >= c.silenceThresh then (m, None)
      else
        var n := m.(silenceCount := m.silenceCount + 1, windowIndex := m.windowIndex + 1);
        if n.silenceCount >= TurnEndWindows(c)
        then (n.(turnEndFired := true), Some(Snapshot(n, TurnEnd, prob)))
        else (n, None)
    else
      var w := m.(windowIndex := m.windowIndex + 1);
      if prob >= c.speechThresh then (w.(silenceCount := 0, voicedCount := w.voicedCount + 1), None)
      else if prob >= c.silenceThresh then (w, None)
      else
        var n := w.(silenceCount := w.silenceCount + 1);
        if n.silenceCount >= EndWindows(c)
        then (n.(speaking := false, voicedCount := 0), Some(Snapshot(n, EndOfUtterance, prob)))
        else if n.silenceCount == 1 then (n, Some(Snapshot(n, Silence, prob)))
        else (n, None)
  }

  class VADMachine {
    const cfg: VADConfig
    var speaking: bool
    var silenceCount: nat
    var voicedCount: nat
    var turnEndFired: bool
    var windowIndex: nat
    var streamWindow: nat

    ghost function State(): Machine
      reads this
    {
      Machine(speaking, silenceCount, voicedCount, turnEndFired, windowIndex, streamWindow)
    }

    constructor (c: VADConfig)
      ensures cfg == WithDefaults(c) && State() == FRESH
    {
      cfg := WithDefaults(c);
      speaking, silenceCount, voicedCount, turnEndFired, windowIndex, streamWindow := false, 0, 0, false, 0, 0;
    }

    method Event(kind: VoiceKind, prob: real) returns (ev: VADEvent)
      ensures ev == Snapshot(State(), kind, prob)
    {
      ev := VADEvent(kind, prob, voicedCount, silenceCount, windowIndex, streamWindow);
    }

    method Advance(prob: real) returns (ev: Option<VADEvent>)
      requires Resolved(cfg)
      modifies this
      ensures (State(), ev) == Step(cfg, old(State()), prob)
    {
      ev := None;
      streamWindow := streamWindow + 1;
      if !speaking {
        if prob >= cfg.speechThresh {
          speaking, silenceCount, voicedCount, turnEndFired, windowIndex := true, 0, 1, false, 0;
          var e := Event(Speech, prob);
          return Some(e);
        }
        if turnEndFired || prob >= cfg.silenceThresh { return; }
        silenceCount := silenceCount + 1;
        windowIndex := windowIndex + 1;
        if silenceCount >= TurnEndWindows(cfg) {
          turnEndFired := true;
          var e := Event(TurnEnd, prob);
          ev := Some(e);
        }
        return;
      }
      windowIndex := windowIndex + 1;
      if prob >= cfg.speechThresh {
        silenceCount := 0;
        voicedCount := voicedCount + 1;
        return;
      }
      if prob >= cfg.silenceThresh { return; }
      silenceCount := silenceCount + 1;
      if silenceCount >= EndWindows(cfg) {
        var e := Event(EndOfUtterance, prob);
        speaking := false;
        voicedCount := 0;
        return Some(e);
      }
      if silenceCount == 1 {
        var e := Event(Silence, prob);
        ev := Some(e);
      }
    }
  }

  // ---- what the events mean, from the history alone ------------------------------------------

  datatype Class = Voiced | Dead | Silent

  function Classify(c: VADConfig, prob: real): Class {
    if prob >= c.speechThresh then Voiced else if prob >= c.silenceThresh then Dead else Silent
  }

  function Classes(c: VADConfig, probs: seq<real>): seq<Class> {
    seq(|probs|, i requires 0 <= i < |probs| => Classify(c, probs[i]))
  }

  /** Silent windows since the last voiced one; dead-zone windows neither count nor reset. */
  function SilentRun(h: seq<Class>): nat {
    if h == [] then 0
    else
      var front := h[..|h| - 1];
      match h[|h| - 1]
      case Voiced => 0
      case Dead => SilentRun(front)
      case Silent => SilentRun(front) + 1
  }

  /** The silent window that ends an utterance: the ceiling, or the first if it rounds to none. */
  function EndAt(c: VADConfig): nat
    requires Resolved(c)
  {
    Max(1, EndWindows(c))
  }

  /** The silent window that ends a turn: its own threshold, but never the one that ended the utterance. */
  function TurnAt(c: VADConfig, spoken: bool): nat
    requires Resolved(c)
  {
    if spoken then Max(EndAt(c) + 1, TurnEndWindows(c)) else Max(1, TurnEndWindows(c))
  }

  predicate Speaking(c: VADConfig, h: seq<Class>)
    requires Resolved(c)
  {
    Voiced in h && SilentRun(h) < EndAt(c)
  }

  /** The event window x raises after history h, with no machine state at all. */
  function KindAt(c: VADConfig, h: seq<Class>, x: Class): Option<VoiceKind>
    requires Resolved(c)
  {
    var run := SilentRun(h) + 1;
    match x
    case Dead => None
    case Voiced => if Speaking(c, h) then None else Some(Speech)
    case Silent =>
      if Speaking(c, h) then
        (if run == EndAt(c) then Some(EndOfUtterance) else if run == 1 then Some(Silence) else None)
      else if run == TurnAt(c, Voiced in h) then Some(TurnEnd)
      else None
  }

  /** The window that opened the latest utterance. */
  function Onset(c: VADConfig, h: seq<Class>): (k: nat)
    requires Resolved(c)
    ensures k <= |h|
  {
    if h == [] then 0
    else if h[|h| - 1] == Voiced && !Speaking(c, h[..|h| - 1]) then |h| - 1
    else Onset(c, h[..|h| - 1])
  }

  /** The window that ended the latest utterance. */
  function Closing(c: VADConfig, h: seq<Class>): (k: nat)
    requires Resolved(c)
    ensures k <= |h|
  {
    if h == [] then 0
    else
      var front := h[..|h| - 1];
      if h[|h| - 1] == Silent && Speaking(c, front) && SilentRun(front) + 1 == EndAt(c) then |h| - 1
      else Closing(c, front)
  }

  /** Windows from the onset to the end of the latest utterance, when it has ended. */
  function Length(c: VADConfig, h: seq<Class>): int
    requires Resolved(c)
  {
    Closing(c, h) - Onset(c, h)
  }

  /** The silent windows counted outside speech: since the end of the utterance, up to the turn's end. */
  function Waited(c: VADConfig, h: seq<Class>): int
    requires Resolved(c)
  {
    Min(SilentRun(h), TurnAt(c, Voiced in h)) - if Voiced in h then EndAt(c) else 0
  }

  function CountVoiced(h: seq<Class>): nat {
    if h == [] then 0 else CountVoiced(h[..|h| - 1]) + if h[|h| - 1] == Voiced then 1 else 0
  }

  /** The machine after a history, as the history alone determines it. */
  ghost predicate Tracks(c: VADConfig, m: Machine, h: seq<Class>)
    requires Resolved(c)
  {
    var turnAt := TurnAt(c, Voiced in h);
    && m.streamWindow == |h|
    && m.speaking == Speaking(c, h)
    && m.turnEndFired == (!m.speaking && SilentRun(h) >= turnAt)
    && m.silenceCount == Min(SilentRun(h), turnAt)
    && (m.speaking ==> m.windowIndex + 1 + Onset(c, h) == |h|
                       && m.voicedCount == CountVoiced(h[Onset(c, h)..]))
    && (!m.speaking ==> m.windowIndex == Waited(c, h) + (if Voiced in h then Length(c, h) else 0)
                        && m.voicedCount == 0)
  }

  /** What one window's outcome must be, given the classes of the windows before it. */
  ghost predicate MatchesHistory(c: VADConfig, h: seq<Class>, x: Class, ev: Option<VADEvent>)
    requires Resolved(c)
  {
    && ev.Some? == KindAt(c, h, x).Some?
    && (ev.Some? ==>
          var onset := Onset(c, h + [x]);
          && ev.value.kind == KindAt(c, h, x).value
          && ev.value.silenceCount == SilentRun(h + [x])
          && ev.value.streamWindowIndex == |h| + 1
          && (ev.value.kind != TurnEnd ==> ev.value.windowIndex + onset == |h|
                                           && ev.value.voicedCount == CountVoiced((h + [x])[onset..]))
          && (ev.value.kind == TurnEnd ==>
                && ev.value.voicedCount == 0
                && ev.value.windowIndex ==
                   if Voiced in h then Length(c, h) + TurnAt(c, true) - EndAt(c) else TurnAt(c, false)))
  }

  /** How each quantity read off a history changes with one more window. */
  lemma HistoryGrows(c: VADConfig, h: seq<Class>, x: Class)
    requires Resolved(c)
    ensures var g := h + [x];
            && (Voiced in g <==> Voiced in h || x == Voiced)
            && SilentRun(g) == (match x case Voiced => 0 case Dead => SilentRun(h) case Silent => SilentRun(h) + 1)
            && Onset(c, g) == (if x == Voiced && !Speaking(c, h) then |h| else Onset(c, h))
            && Closing(c, g) == (if x == Silent && Speaking(c, h) && SilentRun(h) + 1 == EndAt(c) then |h|
                                 else Closing(c, h))
            && CountVoiced(g[Onset(c, g)..]) ==
               (if Onset(c, g) == |h| then 0 else CountVoiced(h[Onset(c, h)..])) + if x == Voiced then 1 else 0
  {
    var g := h + [x];
    assert g[..|h|] == h && g[|h|] == x;
    var onset := Onset(c, g);
    var heard := g[onset..];
    assert heard[..|heard| - 1] == h[onset..];
    hide WindowMS, WindowsToCross, EndWindows, TurnEndWindows, EndAt, Speaking;
  }

  lemma SpeakingTracks(c: VADConfig, m: Machine, h: seq<Class>, prob: real)
    requires Resolved(c) && Tracks(c, m, h) && m.speaking
    ensures Tracks(c, Step(c, m, prob).0, h + [Classify(c, prob)])
    ensures MatchesHistory(c, h, Classify(c, prob), Step(c, m, prob).1)
  {
    hide WindowMS, WindowsToCross, EndWindows, TurnEndWindows, SilentRun, Onset, Closing, CountVoiced;
    HistoryGrows(c, h, Classify(c, prob));
    if prob >= c.speechThresh {
    } else if prob >= c.silenceThresh {
    } else {
      assert Classify(c, prob) == Silent;
    }
  }

  lemma IdleTracks(c: VADConfig, m: Machine, h: seq<Class>, prob: real)
    requires Resolved(c) && Tracks(c, m, h) && !m.speaking
    ensures Tracks(c, Step(c, m, prob).0, h + [Classify(c, prob)])
    ensures MatchesHistory(c, h, Classify(c, prob), Step(c, m, prob).1)
  {
    hide WindowMS, WindowsToCross, EndWindows, TurnEndWindows, SilentRun, Onset, Closing, CountVoiced;
    HistoryGrows(c, h, Classify(c, prob));
    if prob >= c.speechThresh {
    } else if prob >= c.silenceThresh {
    } else {
      assert Classify(c, prob) == Silent;
    }
  }

  /** One window keeps the machine what its history makes it, and raises what the history calls for. */
  lemma StepTracks(c: VADConfig, m: Machine, h: seq<Class>, prob: real)
    requires Resolved(c) && Tracks(c, m, h)
    ensures Tracks(c, Step(c, m, prob).0, h + [Classify(c, prob)])
    ensures MatchesHistory(c, h, Classify(c, prob), Step(c, m, prob).1)
  {
    hide Tracks, MatchesHistory, Step, Classify;
    if m.speaking {
      SpeakingTracks(c, m, h, prob);
    } else {
      IdleTracks(c, m, h, prob);
    }
  }

  /** One optional event per window. */
  function Events(c: VADConfig, m: Machine, probs: seq<real>): (evs: seq<Option<VADEvent>>)
    requires Resolved(c)
    ensures |evs| == |probs|
    decreases |probs|
  {
    if probs == [] then []
    else
      var (n, ev) := Step(c, m, probs[0]);
      [ev] + Events(c, n, probs[1..])
  }

  lemma {:induction false} EventsTrack(c: VADConfig, m: Machine, h: seq<Class>, probs: seq<real>, k: nat)
    requires Resolved(c) && Tracks(c, m, h) && k < |probs|
    ensures MatchesHistory(c, h + Classes(c, probs[..k]), Classify(c, probs[k]), Events(c, m, probs)[k])
    decreases |probs|
  {
    hide Step, Tracks, KindAt, Classify;
    StepTracks(c, m, h, probs[0]);
    if k == 0 {
      assert h + Classes(c, probs[..0]) == h;
    } else {
      var x := Classify(c, probs[0]);
      EventsTrack(c, Step(c, m, probs[0]).0, h + [x], probs[1..], k - 1);
      assert probs[1..][..k - 1] == probs[1..k];
      assert h + [x] + Classes(c, probs[1..k]) == h + Classes(c, probs[..k]);
    }
  }

  /**
   For every sequence of probabilities and every window in it, the machine raises exactly
   the event its history calls for, stamped with the silent run and the stream position.
   */
  lemma MachineMeetsHistory(c: VADConfig, probs: seq<real>, k: nat)
    requires Resolved(c) && k < |probs|
    ensures MatchesHistory(c, Classes(c, probs[..k]), Classify(c, probs[k]), Events(c, FRESH, probs)[k])
  {
    EventsTrack(c, FRESH, [], probs, k);
    assert [] + Classes(c, probs[..k]) == Classes(c, probs[..k]);
  }

  // ---- the order events can come in ----------------------------------------------------------

  datatype Phase = Opening | OpeningEnded | InSpeech | AfterSpeech | AfterTurn

  /** The grammar (TurnEnd)? (Speech Silence* EndOfUtterance (TurnEnd)?)*, one event at a time. */
  function Follows(p: Phase, k: VoiceKind): Option<Phase> {
    match (p, k)
    case (Opening, TurnEnd) => Some(OpeningEnded)
    case (Opening, Speech) => Some(InSpeech)
    case (OpeningEnded, Speech) => Some(InSpeech)
    case (InSpeech, Silence) => Some(InSpeech)
    case (InSpeech, EndOfUtterance) => Some(AfterSpeech)
    case (AfterSpeech, TurnEnd) => Some(AfterTurn)
    case (AfterSpeech, Speech) => Some(InSpeech)
    case (AfterTurn, Speech) => Some(InSpeech)
    case _ => None
  }

  predicate InGrammar(p: Phase, evs: seq<Option<VADEvent>>)
    decreases |evs|
  {
    if evs == [] then true
    else if evs[0].None? then InGrammar(p, evs[1..])
    else Follows(p, evs[0].value.kind).Some? && InGrammar(Follows(p, evs[0].value.kind).value, evs[1..])
  }

  predicate PhaseFits(p: Phase, m: Machine) {
    && (m.speaking <==> p == InSpeech)
    && (m.speaking ==> !m.turnEndFired)
    && (!m.speaking ==> (m.turnEndFired <==> p == OpeningEnded || p == AfterTurn))
  }

  lemma {:induction false} EventsInGrammarFrom(c: VADConfig, m: Machine, p: Phase, probs: seq<real>)
    requires Resolved(c) && PhaseFits(p, m)
    ensures InGrammar(p, Events(c, m, probs))
    decreases |probs|
  {
    if probs != [] {
      var (n, ev) := Step(c, m, probs[0]);
      hide EndWindows, TurnEndWindows;
      var q := if ev.None? then p else Follows(p, ev.value.kind).value;
      EventsInGrammarFrom(c, n, q, probs[1..]);
      assert ([ev] + Events(c, n, probs[1..]))[1..] == Events(c, n, probs[1..]);
    }
  }

  /** Whatever the probabilities, the events of a call come in grammatical order. */
  lemma EventsInGrammar(c: VADConfig, probs: seq<real>)
    requires Resolved(c)
    ensures InGrammar(Opening, Events(c, FRESH, probs))
  {
    EventsInGrammarFrom(c, FRESH, Opening, probs);
  }
}
