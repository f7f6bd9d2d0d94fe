/**
 Every call ends. Once no further input arrives and pending timers are handled in deadline
 order, a session closes after a bounded number of firings, and by a known instant when
 each firing is handled on time.
 */
module SessionTermination {
  import opened Common
  import opened SessionModel
  import opened Telephony
  import opened SessionInvariants

  /** t is pending and no other pending timer is due before it. */
  ghost predicate Earliest(m: Machine, t: Timer) {
    m.live.Armed(t) &&
    forall u :: m.live.Armed(u) ==> m.live.Due(t).due <= m.live.Due(u).due
  }

  /** A firing: which timer, and the instant it is handled. */
  datatype Firing = Firing(timer: Timer, at: nat)

  function AsStep(f: Firing): Step { Deliver(TimerFired(f.timer), f.at) }

  /** Only live timers fire, earliest first; each may be handled arbitrarily late. */
  ghost predicate Quiet(cfg: Config, v: View, fires: seq<Firing>)
    decreases |fires|
  {
    fires == [] ||
    (Earliest(v.m, fires[0].timer) && Enabled(v, AsStep(fires[0])) &&
     Quiet(cfg, Next(cfg, v, AsStep(fires[0])), fires[1..]))
  }

  ghost function AfterFires(cfg: Config, v: View, fires: seq<Firing>): View
    requires Quiet(cfg, v, fires)
    decreases |fires|
  {
    if fires == [] then v else AfterFires(cfg, Next(cfg, v, AsStep(fires[0])), fires[1..])
  }

  // ---- what a firing does to the machine ---------------------------------------------------

  function Fire(cfg: Config, m: Machine, t: Timer, at: nat): Machine {
    var a := m.(now := at, live := m.live.With(t, Off));
    match t
    case TIdle => if InProgress(m.state) then Terminated(a, |cfg.farewell|) else a
    case TUtterance => if InProgress(m.state) then Terminated(a, |cfg.forcedStop|) else a
    case TTurn => if InProgress(m.state) then Terminated(a, |cfg.forcedStop|) else a
    case TResponse =>
      if m.state == AwaitingResponse then Terminated(Cancel(a, TBedTick), |cfg.farewell|) else a
    case TBedTick => if m.state == AwaitingResponse then Arm(a, TBedTick, BED_TICK_MS) else a
    case TMarkEcho =>
      if m.state == AwaitingResponsePlayout then BackToListening(cfg, a)
      else if m.state == AwaitingMarkEcho then a.(state := Closed)
      else a
  }

  function Terminated(m: Machine, clipBytes: nat): Machine {
    Arm(TurnOver(m).(state := AwaitingMarkEcho), TMarkEcho, MarkEchoTimeout(clipBytes))
  }

  lemma FiringOnMachine(cfg: Config, v: View, f: Firing)
    requires Enabled(v, AsStep(f))
    ensures Next(cfg, v, AsStep(f)).m == Fire(cfg, v.m, f.timer, f.at)
  {
    hide HandleVAD, HandleSTTResult, HandleResponseReady, HandleDataFrame, HandlePlayoutEcho,
      HandleMarkEcho, HandleControlEvent, FlushTranscripts, SendBedChunk, MarkEchoTimeout, ClipFrames,
      SendMark, SendAudio, AsClip;
  }

  // ---- the measure -------------------------------------------------------------------------

  function One(o: Pending): nat { if o.At? then 1 else 0 }

  function PendingCount(l: Timers): nat {
    One(l.idle) + One(l.markEcho) + One(l.utterance) + One(l.response) + One(l.turn) + One(l.bedTick)
  }

  function Rank(st: SessionState): nat {
    match st
    case Closed => 0
    case AwaitingMarkEcho => 1
    case AwaitingResponsePlayout => 3
    case _ => 2
  }

  /** Bed ticks that can still be handled before the response cap is the earliest timer. */
  function TicksLeft(m: Machine): nat {
    if m.state == AwaitingResponse && m.live.response.At? && m.live.bedTick.At?
       && m.live.bedTick.due <= m.live.response.due
    then (m.live.response.due - m.live.bedTick.due) / BED_TICK_MS + 1 else 0
  }

  function FiringsLeft(m: Machine): nat { Rank(m.state) + PendingCount(m.live) + TicksLeft(m) }

  lemma TicksShrink(d: nat, b: nat, b': nat)
    requires b <= d && b + BED_TICK_MS <= b'
    ensures b' <= d ==> (d - b') / BED_TICK_MS + 1 <= (d - b) / BED_TICK_MS
  {
  }

  /** Every firing strictly uses up the measure. */
  lemma FiringConsumes(cfg: Config, m: Machine, f: Firing)
    requires TimersFit(m) && Earliest(m, f.timer) && m.live.Due(f.timer).due <= f.at
    ensures FiringsLeft(Fire(cfg, m, f.timer, f.at)) < FiringsLeft(m)
  {
    hide MarkEchoTimeout;
    if m.state == AwaitingResponse && f.timer == TBedTick {
      assert m.live.Armed(TResponse);
      TicksShrink(m.live.response.due, m.live.bedTick.due, f.at + BED_TICK_MS);
    }
    match f.timer
    case TIdle =>
    case TMarkEcho =>
    case TUtterance =>
    case TResponse =>
    case TTurn =>
    case TBedTick =>
  }

  /** While the call is open some timer is pending, so a quiet run can always go on. */
  lemma SomeTimerIsEarliest(m: Machine)
    requires TimersFit(m) && m.state != Closed
    ensures exists t :: Earliest(m, t)
  {
    var driver :| m.live.Armed(driver) by {
      assert HasDriver(m);
      assert m.live.Armed(TResponse) || m.live.Armed(TMarkEcho) || m.live.Armed(TIdle) || m.live.Armed(TUtterance);
    }
    var t := EarliestAmong(m, [TIdle, TMarkEcho, TUtterance, TResponse, TTurn, TBedTick], driver);
    forall u | m.live.Armed(u)
      ensures m.live.Due(t).due <= m.live.Due(u).due
    {
      assert u in [TIdle, TMarkEcho, TUtterance, TResponse, TTurn, TBedTick] by { match u case _ => }
    }
    assert Earliest(m, t);
  }

  lemma {:induction false} EarliestAmong(m: Machine, ts: seq<Timer>, best: Timer) returns (t: Timer)
    requires m.live.Armed(best)
    ensures m.live.Armed(t) && m.live.Due(t).due <= m.live.Due(best).due
    ensures forall u :: u in ts && m.live.Armed(u) ==> m.live.Due(t).due <= m.live.Due(u).due
  {
    if ts == [] {
      t := best;
    } else {
      var u := ts[0];
      t := EarliestAmong(m, ts[1..],
                         if m.live.Armed(u) && m.live.Due(u).due < m.live.Due(best).due then u else best);
    }
  }

  /**
   Every call ends: from any state satisfying the invariant, a run of timer firings alone
   has at most FiringsLeft firings, and one that cannot be extended has reached Closed.
   */
  lemma {:induction false} QuietCallCloses(cfg: Config, v: View, fires: seq<Firing>)
    requires Inv(cfg, v) && Quiet(cfg, v, fires)
    ensures var w := AfterFires(cfg, v, fires);
            && Inv(cfg, w)
            && |fires| + FiringsLeft(w.m) <= FiringsLeft(v.m)
            && (w.m.state == Closed || exists t :: Earliest(w.m, t))
    decreases |fires|
  {
    hide Inv, TimersFit, Next, FiringsLeft, Earliest, Enabled;
    InvHasTimers(cfg, v);
    if fires == [] {
      if v.m.state != Closed {
        SomeTimerIsEarliest(v.m);
      }
    } else {
      EnabledFiring(v, fires[0]);
      FiringConsumes(cfg, v.m, fires[0]);
      FiringOnMachine(cfg, v, fires[0]);
      InvPreserved(cfg, v, AsStep(fires[0]));
      QuietCallCloses(cfg, Next(cfg, v, AsStep(fires[0])), fires[1..]);
    }
  }

  lemma EnabledFiring(v: View, f: Firing)
    requires Enabled(v, AsStep(f))
    ensures v.m.live.Armed(f.timer) && v.m.now <= f.at && v.m.live.Due(f.timer).due <= f.at
  {
  }

  lemma InvHasTimers(cfg: Config, v: View)
    requires Inv(cfg, v)
    ensures TimersFit(v.m)
  {
  }

  // ---- by when -------------------------------------------------------------------------------

  /** How long a terminating call waits for its mark, whichever clip it plays. */
  function EchoWait(cfg: Config): nat { MarkEchoTimeout(Max(|cfg.farewell|, |cfg.forcedStop|)) }

  function DriverDue(m: Machine): nat {
    if m.live.idle.At? then m.live.idle.due
    else if m.live.utterance.At? then m.live.utterance.due else m.now
  }

  function DueOrNow(o: Pending, now: nat): nat { if o.At? then Max(now, o.due) else now }

  /** The instant by which a silent call is over, read off its pending timers. */
  function CloseBy(cfg: Config, m: Machine): nat {
    match m.state
    case Closed => m.now
    case AwaitingMarkEcho => DueOrNow(m.live.markEcho, m.now)
    case AwaitingResponse => DueOrNow(m.live.response, m.now) + EchoWait(cfg)
    case AwaitingResponsePlayout => DueOrNow(m.live.markEcho, m.now) + cfg.IdleMS() + EchoWait(cfg)
    case _ => Max(m.now, DriverDue(m)) + EchoWait(cfg)
  }

  /** Each firing is handled when due (or at once, if overdue), and none after the close. */
  ghost predicate Prompt(cfg: Config, v: View, fires: seq<Firing>)
    requires Quiet(cfg, v, fires)
    decreases |fires|
  {
    fires == [] ||
    (v.m.state != Closed &&
     fires[0].at == Max(v.m.now, v.m.live.Due(fires[0].timer).due) &&
     Prompt(cfg, Next(cfg, v, AsStep(fires[0])), fires[1..]))
  }

  lemma EchoWaitCovers(cfg: Config)
    ensures MarkEchoTimeout(|cfg.farewell|) <= EchoWait(cfg)
    ensures MarkEchoTimeout(|cfg.forcedStop|) <= EchoWait(cfg)
  {
  }

  lemma FiringKeepsCloseBy(cfg: Config, m: Machine, f: Firing)
    requires TimersFit(m) && m.state != Closed && Earliest(m, f.timer)
    requires f.at == Max(m.now, m.live.Due(f.timer).due)
    ensures CloseBy(cfg, Fire(cfg, m, f.timer, f.at)) <= CloseBy(cfg, m)
  {
    EchoWaitCovers(cfg);
    hide MarkEchoTimeout, EchoWait;
    assert m.live.Armed(TIdle) == m.live.idle.At?;
    assert m.live.Armed(TUtterance) == m.live.utterance.At?;
    assert m.live.Armed(TResponse) == m.live.response.At?;
    assert m.live.Armed(TMarkEcho) == m.live.markEcho.At?;
    var a := m.(now := f.at, live := m.live.With(f.timer, Off));
    match f.timer
    case TIdle =>
    case TMarkEcho =>
    case TUtterance =>
    case TResponse =>
    case TTurn =>
    case TBedTick =>
  }

  /** A silent call whose timers are handled on time is never open past CloseBy. */
  lemma {:induction false} QuietCallClosesBy(cfg: Config, v: View, fires: seq<Firing>)
    requires Inv(cfg, v) && Quiet(cfg, v, fires) && Prompt(cfg, v, fires)
    ensures AfterFires(cfg, v, fires).m.now <= CloseBy(cfg, v.m)
    decreases |fires|
  {
    hide Inv, TimersFit, Next, Earliest, Enabled, EchoWait;
    if fires != [] {
      InvHasTimers(cfg, v);
      EnabledFiring(v, fires[0]);
      FiringKeepsCloseBy(cfg, v.m, fires[0]);
      FiringOnMachine(cfg, v, fires[0]);
      InvPreserved(cfg, v, AsStep(fires[0]));
      QuietCallClosesBy(cfg, Next(cfg, v, AsStep(fires[0])), fires[1..]);
    }
  }

  /** The firing a prompt run takes next. */
  function PromptFiring(m: Machine, t: Timer): Firing
    requires m.live.Armed(t)
  {
    Firing(t, Max(m.now, m.live.Due(t).due))
  }

  lemma PromptFiringEnabled(v: View, t: Timer)
    requires v.m.live.Armed(t)
    ensures Enabled(v, AsStep(PromptFiring(v.m, t)))
  {
  }

  /** From every state satisfying the invariant a prompt run reaches Closed, in bounded firings and by CloseBy. */
  lemma {:induction false} PromptRunCloses(cfg: Config, v: View) returns (fires: seq<Firing>)
    requires Inv(cfg, v)
    ensures Quiet(cfg, v, fires) && Prompt(cfg, v, fires)
    ensures var w := AfterFires(cfg, v, fires);
            w.m.state == Closed && |fires| <= FiringsLeft(v.m) && w.m.now <= CloseBy(cfg, v.m)
    decreases FiringsLeft(v.m)
  {
    hide Inv, TimersFit, Next, FiringsLeft, Earliest, Enabled, CloseBy, PromptFiring;
    InvHasTimers(cfg, v);
    if v.m.state == Closed {
      fires := [];
    } else {
      SomeTimerIsEarliest(v.m);
      var t :| Earliest(v.m, t);
      EarliestIsArmed(v.m, t);
      var f := PromptFiring(v.m, t);
      PromptFiringEnabled(v, t);
      PromptShape(v.m, t);
      EnabledFiring(v, f);
      FiringConsumes(cfg, v.m, f);
      FiringOnMachine(cfg, v, f);
      InvPreserved(cfg, v, AsStep(f));
      var rest := PromptRunCloses(cfg, Next(cfg, v, AsStep(f)));
      fires := [f] + rest;
      assert fires[1..] == rest;
    }
    QuietCallClosesBy(cfg, v, fires);
    QuietCallCloses(cfg, v, fires);
  }

  lemma EarliestIsArmed(m: Machine, t: Timer)
    requires Earliest(m, t)
    ensures m.live.Armed(t)
  {
  }

  lemma PromptShape(m: Machine, t: Timer)
    requires m.live.Armed(t)
    ensures PromptFiring(m, t).timer == t && PromptFiring(m, t).at == Max(m.now, m.live.Due(t).due)
  {
  }

  /** A prompt run that has not closed the call can go on promptly: one that cannot go on is Closed. */
  lemma {:induction false} PromptRunGoesOn(cfg: Config, v: View, fires: seq<Firing>) returns (f: Firing)
    requires Inv(cfg, v) && Quiet(cfg, v, fires) && Prompt(cfg, v, fires)
    requires AfterFires(cfg, v, fires).m.state != Closed
    ensures Quiet(cfg, v, fires + [f]) && Prompt(cfg, v, fires + [f])
    decreases |fires|
  {
    hide Inv, TimersFit, Next, Earliest, Enabled, PromptFiring;
    InvHasTimers(cfg, v);
    if fires == [] {
      SomeTimerIsEarliest(v.m);
      var t :| Earliest(v.m, t);
      EarliestIsArmed(v.m, t);
      f := PromptFiring(v.m, t);
      PromptFiringEnabled(v, t);
      PromptShape(v.m, t);
      assert [] + [f] == [f] && [f][1..] == [];
      assert Quiet(cfg, Next(cfg, v, AsStep(f)), [f][1..]);
    } else {
      var w := Next(cfg, v, AsStep(fires[0]));
      InvPreserved(cfg, v, AsStep(fires[0]));
      f := PromptRunGoesOn(cfg, w, fires[1..]);
      assert (fires + [f])[1..] == fires[1..] + [f];
    }
  }

  // ---- how far ahead a reachable session's timers can be -------------------------------------

  ghost predicate DeadlinesNear(cfg: Config, m: Machine) {
    && (m.live.idle.At? ==> m.live.idle.due <= m.now + cfg.IdleMS())
    && (m.live.utterance.At? ==> m.live.utterance.due <= m.now + cfg.UtteranceMS())
    && (m.live.response.At? ==> m.live.response.due <= m.now + cfg.ResponseMS())
    && (m.state == AwaitingMarkEcho && m.live.markEcho.At? ==>
          m.live.markEcho.due <= m.now + EchoWait(cfg))
  }

  lemma DeadlinesNearTimer(cfg: Config, m: Machine, t: Timer, at: nat)
    requires DeadlinesNear(cfg, m) && m.now <= at
    ensures DeadlinesNear(cfg, Fire(cfg, m, t, at))
  {
    EchoWaitCovers(cfg);
    hide EchoWait, MarkEchoTimeout;
    assert DeadlinesNear(cfg, m.(now := at, live := m.live.With(t, Off)));
    match t
    case TIdle =>
    case TMarkEcho =>
    case TUtterance =>
    case TResponse =>
    case TTurn =>
    case TBedTick =>
  }

  lemma TurnEndKeepsNear(cfg: Config, v: View, trigger: Trigger)
    requires DeadlinesNear(cfg, v.m)
    ensures DeadlinesNear(cfg, CompleteTurn(v, trigger).m)
    ensures DeadlinesNear(cfg, EnterAwaitingResponse(cfg, CompleteTurn(v, trigger)).m)
  {
    hide EchoWait, FlushTranscripts;
  }

  lemma DeadlinesNearVAD(cfg: Config, v: View, kind: VoiceKind)
    requires DeadlinesNear(cfg, v.m)
    ensures DeadlinesNear(cfg, HandleVAD(cfg, v, kind).m)
  {
    hide EchoWait, FlushTranscripts, DispatchSTT, EnterAwaitingResponse, CompleteTurn;
    match kind
    case Speech =>
    case Silence =>
    case TurnEnd => TurnEndKeepsNear(cfg, v, SilenceTurnEnd);
    case EndOfUtterance =>
  }

  lemma DeadlinesNearSTT(cfg: Config, v: View, ev: Event)
    requires DeadlinesNear(cfg, v.m) && ev.Stt?
    ensures DeadlinesNear(cfg, HandleSTTResult(cfg, v, ev).m)
  {
    hide EchoWait, TrimSpace, Accept, EnterAwaitingResponse, CompleteTurn;
    TurnEndKeepsNear(cfg, v, Stopword);
    TurnEndKeepsNear(cfg, v.(text := Accept(v.text, TrimSpace(ev.text))), SilenceTurnEnd);
  }

  lemma DeadlinesNearResponse(cfg: Config, v: View, ev: Event)
    requires DeadlinesNear(cfg, v.m) && ev.Response?
    ensures DeadlinesNear(cfg, HandleResponseReady(cfg, v, ev).m)
  {
    hide EchoWait, MarkEchoTimeout, SendMark, SendAudio, SendClear, Flatten, AsResponse;
  }

  lemma DeadlinesNearInput(cfg: Config, v: View, ev: Event)
    requires DeadlinesNear(cfg, v.m) && !ev.TimerFired?
    ensures DeadlinesNear(cfg, Handle(cfg, v, Lookup(v.m.state, SourceOf(ev)), ev).m)
  {
    hide EchoWait, HandleVAD, HandleSTTResult, HandleResponseReady, FlushTranscripts, TakeFrame,
      TerminateWithClip, HandleBedTick, HandleResponseTimeout;
    match Lookup(v.m.state, SourceOf(ev))
    case ListeningVAD => DeadlinesNearVAD(cfg, v, ev.vad);
    case AwaitingFullResultVAD => DeadlinesNearVAD(cfg, v, ev.vad);
    case SttResult => DeadlinesNearSTT(cfg, v, ev);
    case ResponseReadyH => DeadlinesNearResponse(cfg, v, ev);
    case _ =>
  }

  lemma DeadlinesNearPreserved(cfg: Config, v: View, step: Step)
    requires DeadlinesNear(cfg, v.m) && Enabled(v, step)
    ensures DeadlinesNear(cfg, Next(cfg, v, step).m)
  {
    hide Handle, Lookup;
    match step
    case Deliver(TimerFired(t), at) =>
      FiringOnMachine(cfg, v, Firing(t, at));
      DeadlinesNearTimer(cfg, v.m, t, at);
    case Deliver(ev, at) => DeadlinesNearInput(cfg, v.(m := v.m.(now := at)), ev);
    case _ =>
  }

  lemma {:induction false} DeadlinesNearThroughout(cfg: Config, v: View, steps: seq<Step>)
    requires DeadlinesNear(cfg, v.m) && Legal(cfg, v, steps)
    ensures DeadlinesNear(cfg, After(cfg, v, steps).m)
    decreases |steps|
  {
    hide Next, Enabled, DeadlinesNear;
    if steps != [] {
      DeadlinesNearPreserved(cfg, v, steps[0]);
      DeadlinesNearThroughout(cfg, Next(cfg, v, steps[0]), steps[1..]);
    }
  }

  /** How long after `now` a reachable session can stay open once everyone is silent. */
  function SilentMS(cfg: Config, m: Machine): nat {
    if m.state == AwaitingResponsePlayout
    then DueOrNow(m.live.markEcho, m.now) - m.now + cfg.IdleMS() + EchoWait(cfg)
    else Max(cfg.IdleMS(), Max(cfg.UtteranceMS(), cfg.ResponseMS())) + EchoWait(cfg)
  }

  lemma CloseByIsNear(cfg: Config, m: Machine)
    requires TimersFit(m) && DeadlinesNear(cfg, m)
    ensures CloseBy(cfg, m) <= m.now + SilentMS(cfg, m)
  {
    hide EchoWait;
  }

  /**
   The whole promise, from any point of any call: if the caller, the backend and the carrier
   all fall silent, timers handled when due close the call, within the longest cap plus one
   farewell echo (after the playout still owed, when a response is playing); and no run of
   timers handled when due stays open past that instant.
   */
  lemma SilentCallEndsInTime(cfg: Config, start: nat, steps: seq<Step>, any: seq<Firing>) returns (fires: seq<Firing>)
    requires Legal(cfg, Started(cfg, start), steps)
    requires var v := After(cfg, Started(cfg, start), steps);
             Quiet(cfg, v, any) && Prompt(cfg, v, any)
    ensures var v := After(cfg, Started(cfg, start), steps);
            && Quiet(cfg, v, fires) && Prompt(cfg, v, fires)
            && AfterFires(cfg, v, fires).m.state == Closed
            && AfterFires(cfg, v, fires).m.now <= v.m.now + SilentMS(cfg, v.m)
            && AfterFires(cfg, v, any).m.now <= v.m.now + SilentMS(cfg, v.m)
            && (AfterFires(cfg, v, any).m.state == Closed
                || exists f :: Quiet(cfg, v, any + [f]) && Prompt(cfg, v, any + [f]))
  {
    hide Next, Enabled, Quiet, Prompt, Legal, After, CloseBy, SilentMS, DeadlinesNear, TimersFit, FiringsLeft;
    var v := After(cfg, Started(cfg, start), steps);
    ReachableSession(cfg, start, steps);
    StartedIsNear(cfg, start);
    DeadlinesNearThroughout(cfg, Started(cfg, start), steps);
    InvHasTimers(cfg, v);
    CloseByIsNear(cfg, v.m);
    QuietCallClosesBy(cfg, v, any);
    fires := PromptRunCloses(cfg, v);
    if AfterFires(cfg, v, any).m.state != Closed {
      var f := PromptRunGoesOn(cfg, v, any);
    }
  }

  lemma StartedIsNear(cfg: Config, start: nat)
    ensures DeadlinesNear(cfg, Started(cfg, start).m)
  {
    hide EchoWait;
  }
}
