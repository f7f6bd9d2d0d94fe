/**
 The caller-silence bound of one call: a mutex-protected object with two drivers, and the
 functions its methods are proved to compute. Every method runs under the mutex, so each is
 one atomic step.
 */
module CallerSilence {
  import opened Common

  datatype Kind = SpeechStart | SpeechStop | Done(toolCall: bool) | AudioDelta | Other

  /** What the lossless sink drives. */
  datatype Sink = Sink(starts: nat, gen: nat, audio: bool)

  /** What the lossy event drain drives. */
  datatype Drain = Drain(heard: nat, speaking: bool, pending: bool, want: bool, wantHeard: nat)

  /** The countdown: armed, run out, and whether the end of the call has been decided. */
  datatype Count = Count(running: bool, due: bool, stopped: bool)

  /** One-slot signal channels to the select loop. */
  datatype Signals = Signals(dueCh: bool, firedCh: bool)

  datatype Bound = Bound(sink: Sink, drain: Drain, count: Count, sig: Signals)

  const NEW_BOUND := Bound(
    Sink(0, 0, false), Drain(0, false, false, false, 0), Count(false, false, false), Signals(false, false))

  function Halt(c: Count): Count { c.(running := false, due := false) }

  function CallerSpoke(b: Bound): Bound {
    b.(sink := Sink(b.sink.starts + 1, b.sink.gen + 1, false), count := Halt(b.count))
  }

  function AgentAudio(b: Bound): Bound {
    b.(sink := b.sink.(gen := b.sink.gen + 1, audio := true), count := Halt(b.count))
  }

  function Observe(b: Bound, k: Kind): Bound {
    match k
    case SpeechStart => b.(drain := b.drain.(heard := b.drain.heard + 1, speaking := true))
    case SpeechStop => b.(drain := b.drain.(speaking := false))
    case Done(toolCall) =>
      if toolCall then b.(drain := b.drain.(pending := true, want := false), count := Halt(b.count))
      else if b.drain.speaking then b.(drain := b.drain.(pending := false))
      else b.(drain := b.drain.(pending := false, want := true, wantHeard := b.drain.heard),
              sig := b.sig.(dueCh := true))
    case _ => b
  }

  function TakeRequest(b: Bound): (Bound, Option<nat>) {
    if !b.drain.want || b.count.stopped then (b, None)
    else (b.(drain := b.drain.(want := false)), Some(b.drain.wantHeard))
  }

  predicate Claims(b: Bound, tag: nat) { !b.count.stopped && b.sink.starts == tag && b.sink.audio }

  function Claim(b: Bound, tag: nat): (Bound, Option<nat>) {
    if Claims(b, tag) then (b.(sink := b.sink.(audio := false)), Some(b.sink.gen)) else (b, None)
  }

  predicate Starts(b: Bound, gen: nat) {
    !b.count.stopped && gen == b.sink.gen && !b.drain.pending && !b.count.running
  }

  function Played(b: Bound, gen: nat): Bound {
    if Starts(b, gen) then b.(count := Count(true, false, false)) else b
  }

  predicate Fires(b: Bound, gen: nat) { !b.count.stopped && gen == b.sink.gen && b.count.running }

  function Fire(b: Bound, gen: nat): Bound {
    if Fires(b, gen) then b.(count := Count(false, true, false), sig := b.sig.(firedCh := true)) else b
  }

  predicate Ends(b: Bound) { !b.count.stopped && b.count.due }

  function End(b: Bound): Bound { if Ends(b) then b.(count := Count(false, false, true)) else b }

  function Stop(b: Bound): Bound { b.(count := Count(false, false, true)) }

  /** The object itself. `timer` is the generation its pending function was given, if one is pending. */
  class CallerSilence {
    var starts: nat
    var heard: nat
    var wantHeard: nat
    var gen: nat
    var markSeq: nat
    var speaking: bool
    var audio: bool
    var pending: bool
    var want: bool
    var running: bool
    var due: bool
    var stopped: bool
    var timer: Option<nat>
    var dueCh: bool
    var firedCh: bool

    ghost function State(): Bound
      reads this
    {
      Bound(Sink(starts, gen, audio), Drain(heard, speaking, pending, want, wantHeard),
            Count(running, due, stopped), Signals(dueCh, firedCh))
    }

    /** A timer is pending exactly while the count runs, and it carries the live generation. */
    ghost predicate Valid()
      reads this
    {
      && (timer.Some? <==> running)
      && (timer.Some? ==> timer.value == gen)
      && !(running && due)
    }

    constructor ()
      ensures Valid() && State() == NEW_BOUND && markSeq == 0
    {
      starts, heard, wantHeard, gen, markSeq := 0, 0, 0, 0, 0;
      speaking, audio, pending, want, running, due, stopped := false, false, false, false, false, false, false;
      timer, dueCh, firedCh := None, false, false;
    }

    method StopTimerLocked()
      modifies this`timer, this`running, this`due
      ensures timer.None? && !running && !due
    {
      timer := None;
      running := false;
      due := false;
    }

    method DoCallerSpoke()
      requires Valid()
      modifies this
      ensures Valid() && State() == CallerSpoke(old(State())) && markSeq == old(markSeq)
    {
      starts := starts + 1;
      audio := false;
      gen := gen + 1;
      StopTimerLocked();
    }

    method DoAgentAudio()
      requires Valid()
      modifies this
      ensures Valid() && State() == AgentAudio(old(State())) && markSeq == old(markSeq)
    {
      audio := true;
      gen := gen + 1;
      StopTimerLocked();
    }

    method DoObserve(k: Kind)
      requires Valid()
      modifies this
      ensures Valid() && State() == Observe(old(State()), k) && markSeq == old(markSeq)
    {
      match k
      case SpeechStart =>
        heard := heard + 1;
        speaking := true;
      case SpeechStop =>
        speaking := false;
      case Done(toolCall) =>
        if toolCall {
          pending := true;
          want := false;
          StopTimerLocked();
          return;
        }
        pending := false;
        if speaking { return; }
        want := true;
        wantHeard := heard;
        dueCh := true;
      case _ =>
    }

    method DoTakeRequest() returns (tag: Option<nat>)
      requires Valid()
      modifies this`want
      ensures Valid() && (State(), tag) == TakeRequest(old(State()))
    {
      if !want || stopped { return None; }
      want := false;
      tag := Some(wantHeard);
    }

    /** Mark names never repeat on a call: each carries a sequence number of its own. */
    method NextMark() returns (n: nat)
      requires Valid()
      modifies this`markSeq
      ensures Valid() && n == old(markSeq) + 1 && markSeq == n
    {
      markSeq := markSeq + 1;
      n := markSeq;
    }

    method DoClaim(tag: nat) returns (g: Option<nat>)
      requires Valid()
      modifies this`audio
      ensures Valid() && (State(), g) == Claim(old(State()), tag)
    {
      if stopped || starts != tag || !audio { return None; }
      audio := false;
      g := Some(gen);
    }

    method DoPlayed(g: nat)
      requires Valid()
      modifies this
      ensures Valid() && State() == Played(old(State()), g) && markSeq == old(markSeq)
    {
      if stopped || g != gen || pending || running { return; }
      running := true;
      due := false;
      timer := Some(g);
    }

    method DoFire(g: nat)
      requires Valid()
      modifies this
      ensures Valid() && State() == Fire(old(State()), g) && markSeq == old(markSeq)
    {
      if stopped || g != gen || !running { return; }
      running := false;
      timer := None;
      due := true;
      firedCh := true;
    }

    method DoEnd() returns (ended: bool)
      requires Valid()
      modifies this
      ensures Valid() && State() == End(old(State())) && ended == Ends(old(State())) && markSeq == old(markSeq)
    {
      if stopped || !due { return false; }
      stopped := true;
      StopTimerLocked();
      ended := true;
    }

    method DoStop()
      requires Valid()
      modifies this
      ensures Valid() && State() == Stop(old(State())) && markSeq == old(markSeq)
    {
      stopped := true;
      StopTimerLocked();
    }
  }
}
