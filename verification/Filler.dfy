/**
 The filler of one call: the loop played while the backend is silent. A mutex-protected
 object whose generation number outlives the timers and goroutines it invalidates.
 */
module Filler {
  import opened Common
  import opened CyclicClip
  import opened Telephony

  /** A pending start: the generation its function carries and the instant it is due. */
  datatype Pending = Pending(gen: nat, due: nat)

  datatype Machine = Machine(gen: nat, timer: Option<Pending>, playing: bool, off: nat, stopped: bool)

  const NEW_MACHINE := Machine(0, None, false, 0, false)

  function CancelPending(m: Machine): Machine { m.(gen := m.gen + 1, timer := None) }

  /** Whether an arm schedules a start, rather than leaving a wait that is under way alone. */
  predicate Arms(m: Machine) { !m.stopped && m.timer.None? && !m.playing }

  function Arm(m: Machine, due: nat): Machine {
    if Arms(m) then m.(gen := m.gen + 1, timer := Some(Pending(m.gen + 1, due))) else m
  }

  function Stop(m: Machine): Machine { CancelPending(m).(playing := false) }

  function Shutdown(m: Machine): Machine { Stop(m).(stopped := true) }

  predicate Begins(m: Machine, gen: nat) { !m.stopped && m.gen == gen && !m.playing }

  function Start(m: Machine, gen: nat): Machine {
    if Begins(m, gen) then m.(timer := None, playing := true, off := 0) else m
  }

  function EndEpisode(m: Machine, gen: nat): Machine {
    if m.gen != gen then m else m.(playing := false, gen := m.gen + 1)
  }

  predicate Admits(m: Machine, gen: nat) { !m.stopped && m.gen == gen && m.playing }

  function Frame(loop: seq<Byte>, m: Machine): seq<Byte>
    requires |loop| > 0
  {
    Loop(loop, m.off, FRAME_BYTES)
  }

  function TakeFrame(loop: seq<Byte>, m: Machine): Machine
    requires |loop| > 0
  {
    m.(off := (m.off + FRAME_BYTES) % |loop|)
  }

  class Filler {
    const loop: seq<Byte>
    const delay: nat
    var gen: nat
    var timer: Option<Pending>
    var playing: bool
    var off: nat
    var stopped: bool

    ghost function State(): Machine
      reads this
    {
      Machine(gen, timer, playing, off, stopped)
    }

    constructor (clip: seq<Byte>, wait: nat)
      requires wait > 0 && |clip| > 0
      ensures loop == clip && delay == wait && State() == NEW_MACHINE
    {
      loop, delay := clip, wait;
      gen, timer, playing, off, stopped := 0, None, false, 0, false;
    }

    method CancelPendingLocked()
      modifies this`gen, this`timer
      ensures State() == CancelPending(old(State()))
    {
      gen := gen + 1;
      if timer.Some? {
        timer := None;
      }
    }

    method DoArm(now: nat)
      modifies this
      ensures State() == Arm(old(State()), now + delay)
    {
      if stopped { return; }
      if timer.Some? { return; }
      if playing { return; }
      CancelPendingLocked();
      timer := Some(Pending(gen, now + delay));
    }

    method DoStop() returns (was: bool)
      modifies this
      ensures State() == Stop(old(State())) && was == old(playing)
    {
      was := playing;
      playing := false;
      CancelPendingLocked();
    }

    method DoShutdown()
      modifies this
      ensures State() == Shutdown(old(State()))
    {
      stopped := true;
      playing := false;
      CancelPendingLocked();
    }

    method DoStart(g: nat) returns (began: bool)
      modifies this
      ensures State() == Start(old(State()), g) && began == Begins(old(State()), g)
    {
      if stopped || gen != g || playing { return false; }
      timer := None;
      playing := true;
      off := 0;
      began := true;
    }

    method DoEndEpisode(g: nat)
      modifies this
      ensures State() == EndEpisode(old(State()), g)
    {
      if gen != g { return; }
      playing := false;
      gen := gen + 1;
    }

    /** One frame read across the wrap as often as it takes. */
    method FrameLocked() returns (frame: seq<Byte>)
      requires |loop| > 0
      ensures frame == Loop(loop, off, FRAME_BYTES)
    {
      frame := [];
      var at := off;
      while |frame| < FRAME_BYTES
        invariant |frame| <= FRAME_BYTES
        invariant at == off + |frame|
        invariant frame == Loop(loop, off, |frame|)
        decreases FRAME_BYTES - |frame|
      {
        var i := at % |loop|;
        var take := Min(FRAME_BYTES - |frame|, |loop| - i);
        LoopSlice(loop, i, take);
        LoopReduced(loop, at, take);
        LoopAppend(loop, off, |frame|, take);
        frame := frame + loop[i..i + take];
        at := at + take;
      }
    }

    /** The decision taken inside the write slot: a frame, or None when the episode is over. */
    method NextFrame(g: nat) returns (frame: Option<seq<Byte>>)
      requires |loop| > 0
      modifies this
      ensures frame == if old(Admits(State(), g)) then Some(Frame(loop, old(State()))) else None
      ensures State() == if old(Admits(State(), g)) then TakeFrame(loop, old(State())) else old(State())
    {
      if stopped || gen != g || !playing { return None; }
      var f := FrameLocked();
      off := (off + |f|) % |loop|;
      frame := Some(f);
    }
  }
}
