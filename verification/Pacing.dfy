/**
 The paced player: the one goroutine that writes the sink, releasing each frame no earlier
 than its turn. Times are nanoseconds.
 */
module Pacing {
  import opened Common
  import opened Telephony

  const MS := 1_000_000
  const PLAYER_LEAD := 200 * MS
  const MAX_CATCH_UP := 2000 * MS

  /** One byte per sample at 8 kHz, exactly. */
  function MuLawDuration(n: nat): nat { n * 125_000 }

  lemma DurationIsPlayingTime(n: nat)
    ensures MuLawDuration(n) * SAMPLE_RATE_HZ == n * 1000 * MS
  {
  }

  /** What the outside world does to one frame: how long it takes to come, and by how much a sleep and a write overrun. */
  datatype Turn = Turn(bytes: nat, gap: nat, overshoot: nat, writing: nat)

  datatype Pace = Pace(through: Option<int>, clock: int)

  /** When a frame was taken and released, and how far the audio written before it extended. */
  datatype Release = Release(taken: int, released: int, through: int, bytes: nat)

  /** The audio clock as this turn finds it: restarted on the first frame or when too far behind. */
  function Restarted(through: Option<int>, now: int): int {
    if through.None? || now - through.value > MAX_CATCH_UP then now else through.value
  }

  /** How long the turn sleeps. */
  function Asked(through: int, now: int): nat {
    var d := through - now - PLAYER_LEAD;
    if d > 0 then d else 0
  }

  function Step(s: Pace, t: Turn): (Pace, Release) {
    var now := s.clock + t.gap;
    var w := Restarted(s.through, now);
    var asked := Asked(w, now);
    var released := if asked > 0 then now + asked + t.overshoot else now;
    (Pace(Some(w + MuLawDuration(t.bytes)), released + t.writing), Release(now, released, w, t.bytes))
  }

  function After(s: Pace, turns: seq<Turn>): Pace {
    if turns == [] then s else Step(After(s, turns[..|turns| - 1]), turns[|turns| - 1]).0
  }

  function Releases(s: Pace, turns: seq<Turn>): (r: seq<Release>)
    ensures |r| == |turns|
  {
    if turns == [] then []
    else
      var front := turns[..|turns| - 1];
      Releases(s, front) + [Step(After(s, front), turns[|turns| - 1]).1]
  }

  datatype Item = Audio(data: seq<Byte>) | Barrier

  /** What one item meets: the waits, and the sink's failure if it does not take the frame. */
  datatype Env = Env(gap: nat, overshoot: nat, writing: nat, failure: Option<string>)

  class AudioPlayer {
    var paced: bool
    var clock: int
    var writeThrough: Option<int>
    var sink: seq<Byte>
    var err: Option<string>
    var closed: nat

    ghost function State(): Pace
      reads this
    {
      Pace(writeThrough, clock)
    }

    constructor (pace: bool, now: int)
      ensures paced == pace && State() == Pace(None, now) && sink == [] && err == None && closed == 0
    {
      paced, clock, writeThrough, sink, err, closed := pace, now, None, [], None, 0;
    }

    /** Block until this frame is due; unpaced, do not touch the clock at all. */
    method AwaitTurn(bytes: nat, env: Env) returns (r: Release)
      modifies this`clock, this`writeThrough
      ensures var t := Turn(bytes, env.gap, env.overshoot, 0);
              paced ==> (State(), r) == Step(old(State()), t)
      ensures !paced ==> writeThrough == old(writeThrough) && clock == old(clock) + env.gap && r.released == clock
    {
      clock := clock + env.gap;
      if !paced {
        return Release(clock, clock, clock, bytes);
      }
      var now := clock;
      if writeThrough.None? || now - writeThrough.value > MAX_CATCH_UP {
        writeThrough := Some(now);
      }
      var d := writeThrough.value - now - PLAYER_LEAD;
      if d > 0 {
        clock := now + d + env.overshoot;
      }
      r := Release(now, clock, writeThrough.value, bytes);
      writeThrough := Some(writeThrough.value + MuLawDuration(bytes));
    }

    /** One item: a barrier is closed in its place, a frame waits its turn and is written. */
    method WriteItem(item: Item, env: Env) returns (releases: seq<Release>)
      modifies this
      ensures paced == old(paced)
      ensures paced && item.Audio? ==>
                var t := Turn(|item.data|, env.gap, env.overshoot, env.writing);
                State() == Step(old(State()), t).0 && releases == [Step(old(State()), t).1]
      ensures item.Barrier? ==> State() == old(State()) && releases == []
      ensures sink == old(sink) + if item.Audio? && env.failure.None? then item.data else []
      ensures err == if old(err).None? && item.Audio? then env.failure else old(err)
      ensures closed == old(closed) + if item.Barrier? then 1 else 0
    {
      if item.Barrier? {
        closed := closed + 1;
        return [];
      }
      var r := AwaitTurn(|item.data|, env);
      releases := [r];
      clock := clock + env.writing;
      if env.failure.None? {
        sink := sink + item.data;
      } else if err.None? {
        err := env.failure;
      }
    }

    /** Every queued frame goes to the sink in order; the first failure is remembered, and every one passed over. */
    method WriteLoop(items: seq<Item>, env: seq<Env>) returns (releases: seq<Release>)
      requires |env| == |items|
      modifies this
      ensures paced == old(paced)
      ensures paced ==> releases == Releases(old(State()), Turns(items, env))
      ensures sink == old(sink) + Written(items, env)
      ensures err == if old(err).Some? then old(err) else FirstFailure(items, env)
      ensures closed == old(closed) + Barriers(items)
    {
      releases := [];
      hide Step, Releases, After, Turns, Written, Barriers, FirstFailure;
      NothingQueued(State());
      for i := 0 to |items|
        invariant paced == old(paced)
        invariant paced ==> releases == Releases(old(State()), Turns(items[..i], env[..i]))
        invariant paced ==> State() == After(old(State()), Turns(items[..i], env[..i]))
        invariant sink == old(sink) + Written(items[..i], env[..i])
        invariant err == if old(err).Some? then old(err) else FirstFailure(items[..i], env[..i])
        invariant closed == old(closed) + Barriers(items[..i])
      {
        OneMoreItem(old(State()), items, env, i);
        var r := WriteItem(items[i], env[i]);
        releases := releases + r;
      }
      assert items[..|items|] == items && env[..|items|] == env;
    }
  }

  lemma NothingQueued(s: Pace)
    ensures Turns([], []) == [] && Releases(s, []) == [] && After(s, []) == s
    ensures Written([], []) == [] && Barriers([]) == 0 && FirstFailure([], []) == None
  {
  }

  lemma OneMoreItem(s: Pace, items: seq<Item>, env: seq<Env>, i: nat)
    requires i < |items| == |env|
    ensures var turns, more := Turns(items[..i], env[..i]), Turns(items[..i + 1], env[..i + 1]);
            if items[i].Audio? then
              var t := Turn(|items[i].data|, env[i].gap, env[i].overshoot, env[i].writing);
              && Releases(s, more) == Releases(s, turns) + [Step(After(s, turns), t).1]
              && After(s, more) == Step(After(s, turns), t).0
            else more == turns
    ensures Written(items[..i + 1], env[..i + 1]) ==
            Written(items[..i], env[..i]) + if items[i].Audio? && env[i].failure.None? then items[i].data else []
    ensures FirstFailure(items[..i + 1], env[..i + 1]) ==
            if FirstFailure(items[..i], env[..i]).None? && items[i].Audio? then env[i].failure
            else FirstFailure(items[..i], env[..i])
    ensures Barriers(items[..i + 1]) == Barriers(items[..i]) + if items[i].Barrier? then 1 else 0
  {
    hide Step;
    assert items[..i + 1][..i] == items[..i] && env[..i + 1][..i] == env[..i];
    var turns := Turns(items[..i], env[..i]);
    if items[i].Audio? {
      var more := turns + [Turn(|items[i].data|, env[i].gap, env[i].overshoot, env[i].writing)];
      assert more[..|turns|] == turns;
    }
  }

  function Turns(items: seq<Item>, env: seq<Env>): seq<Turn>
    requires |env| == |items|
  {
    if items == [] then []
    else
      var k := |items| - 1;
      Turns(items[..k], env[..k]) +
      if items[k].Audio? then [Turn(|items[k].data|, env[k].gap, env[k].overshoot, env[k].writing)] else []
  }

  function Written(items: seq<Item>, env: seq<Env>): seq<Byte>
    requires |env| == |items|
  {
    if items == [] then []
    else
      var k := |items| - 1;
      Written(items[..k], env[..k]) + if items[k].Audio? && env[k].failure.None? then items[k].data else []
  }

  /** The failure of the earliest frame the sink did not take. */
  function FirstFailure(items: seq<Item>, env: seq<Env>): Option<string>
    requires |env| == |items|
  {
    if items == [] then None
    else
      var k := |items| - 1;
      var earlier := FirstFailure(items[..k], env[..k]);
      if earlier.None? && items[k].Audio? then env[k].failure else earlier
  }

  lemma {:induction false} FirstFailureIsFirst(items: seq<Item>, env: seq<Env>, k: nat)
    requires |env| == |items| && k < |items| && items[k].Audio? && env[k].failure.Some?
    requires forall j :: 0 <= j < k && items[j].Audio? ==> env[j].failure.None?
    ensures FirstFailure(items, env) == env[k].failure
    decreases |items|
  {
    var n := |items| - 1;
    if k < n {
      FirstFailureIsFirst(items[..n], env[..n], k);
    } else {
      NoFailureYet(items[..n], env[..n]);
    }
  }

  lemma {:induction false} NoFailureYet(items: seq<Item>, env: seq<Env>)
    requires |env| == |items| && forall j :: 0 <= j < |items| && items[j].Audio? ==> env[j].failure.None?
    ensures FirstFailure(items, env) == None
    decreases |items|
  {
    if items != [] {
      NoFailureYet(items[..|items| - 1], env[..|items| - 1]);
    }
  }

  /**
   Every frame the sink takes is on it right behind all those taken before, whatever failed between
   and whatever follows.
   */
  lemma {:induction false} EachFrameInPlace(items: seq<Item>, env: seq<Env>, k: nat)
    requires |env| == |items| && k < |items| && items[k].Audio? && env[k].failure.None?
    ensures Written(items[..k], env[..k]) + items[k].data <= Written(items, env)
    decreases |items|
  {
    var n := |items| - 1;
    if k < n {
      EachFrameInPlace(items[..n], env[..n], k);
      assert items[..n][..k] == items[..k] && env[..n][..k] == env[..k];
    }
  }

  function Barriers(items: seq<Item>): nat {
    if items == [] then 0 else Barriers(items[..|items| - 1]) + if items[|items| - 1].Barrier? then 1 else 0
  }

  // ---- the rate bound ----------------------------------------------------------------------------

  /** The audio released by turns a to b - 1. */
  function AudioOf(r: seq<Release>, a: nat, b: nat): nat
    requires a <= b <= |r|
  {
    if a == b then 0 else AudioOf(r, a, b - 1) + MuLawDuration(r[b - 1].bytes)
  }

  /**
   Each turn's own bounds: the clock is at most two seconds behind it and its release at most the
   lead behind the clock.
   */
  ghost predicate TurnFits(r: Release) {
    && r.released >= r.taken
    && r.through >= r.taken - MAX_CATCH_UP
    && r.through - r.released <= PLAYER_LEAD
  }

  lemma StepFits(s: Pace, t: Turn)
    ensures TurnFits(Step(s, t).1)
    ensures s.through.Some? ==> Step(s, t).1.through >= s.through.value
    ensures Step(s, t).0.through == Some(Step(s, t).1.through + MuLawDuration(t.bytes))
    ensures Step(s, t).1.bytes == t.bytes
  {
  }

  lemma {:induction false} ReleaseAt(s: Pace, turns: seq<Turn>, k: nat)
    requires k < |turns|
    ensures Releases(s, turns)[k] == Step(After(s, turns[..k]), turns[k]).1
    decreases |turns|
  {
    hide Step;
    var front := turns[..|turns| - 1];
    if k < |front| {
      ReleaseAt(s, front, k);
      assert front[..k] == turns[..k];
    }
  }

  // ---- when each frame goes out --------------------------------------------------------------------

  /** Where the audio written before turn k ends, if any has been. */
  function AudioEnd(s: Pace, r: seq<Release>, k: nat): Option<int>
    requires k <= |r|
  {
    if k == 0 then s.through else Some(r[k - 1].through + MuLawDuration(r[k - 1].bytes))
  }

  /** When the player comes free for turn k. */
  function FreeAt(s: Pace, r: seq<Release>, turns: seq<Turn>, k: nat): int
    requires k <= |r| == |turns|
  {
    if k == 0 then s.clock else r[k - 1].released + turns[k - 1].writing
  }

  /** What the player knows going into turn k is where the audio ends and when it came free. */
  lemma PaceBefore(s: Pace, turns: seq<Turn>, k: nat)
    requires k <= |turns|
    ensures var r := Releases(s, turns);
            After(s, turns[..k]) == Pace(AudioEnd(s, r, k), FreeAt(s, r, turns, k))
  {
    if k > 0 {
      ReleaseAt(s, turns, k - 1);
      assert turns[..k][..k - 1] == turns[..k - 1];
    }
  }

  /**
   Every frame of every run goes out when it is due: at once when at most the lead of audio is
   ahead of it, and otherwise when exactly the lead is left, as late as the sleep overran. The
   audio ahead of it is what was written before, unless there was none or it ran out more than
   the catch-up allowance ago.
   */
  lemma FramesGoOutWhenDue(s: Pace, turns: seq<Turn>, k: nat)
    requires k < |turns|
    ensures var r := Releases(s, turns);
            var x, end := r[k], AudioEnd(s, r, k);
            && x.bytes == turns[k].bytes
            && x.taken == FreeAt(s, r, turns, k) + turns[k].gap
            && (x.through - x.taken <= PLAYER_LEAD ==> x.released == x.taken)
            && (x.through - x.taken > PLAYER_LEAD ==> x.released == x.through - PLAYER_LEAD + turns[k].overshoot)
            && x.through == if end.Some? && x.taken - end.value <= MAX_CATCH_UP then end.value else x.taken
  {
    ReleaseAt(s, turns, k);
    PaceBefore(s, turns, k);
  }

  /** Frames come and are written in real time, and no sleep overruns by more than the lead. */
  ghost predicate Supplied(turns: seq<Turn>) {
    && (forall k :: 0 <= k < |turns| ==> turns[k].overshoot <= PLAYER_LEAD)
    && (forall k :: 0 < k < |turns| ==> turns[k - 1].writing + turns[k].gap <= MuLawDuration(turns[k - 1].bytes))
  }

  /** A player that is kept supplied never lets the sink run dry: each frame is out before the audio ahead of it ends. */
  lemma {:induction false} SinkNeverRunsDry(s: Pace, turns: seq<Turn>, k: nat)
    requires s.through.None? && Supplied(turns) && k < |turns|
    ensures Releases(s, turns)[k].released <= Releases(s, turns)[k].through
    ensures k > 0 ==> Some(Releases(s, turns)[k].through) == AudioEnd(s, Releases(s, turns), k)
  {
    FramesGoOutWhenDue(s, turns, k);
    if k > 0 {
      SinkNeverRunsDry(s, turns, k - 1);
      FramesGoOutWhenDue(s, turns, k - 1);
    }
  }

  /** At every release the audio already written is at most the lead ahead of the clock. */
  lemma NeverMoreThanLeadAhead(s: Pace, turns: seq<Turn>, k: nat)
    requires k < |turns|
    ensures Releases(s, turns)[k].through - Releases(s, turns)[k].released <= PLAYER_LEAD
  {
    ReleaseAt(s, turns, k);
    StepFits(After(s, turns[..k]), turns[k]);
  }

  /** From one turn to a later one the audio clock has grown by at least the audio between them. */
  lemma {:induction false} ClockGrows(s: Pace, turns: seq<Turn>, a: nat, b: nat)
    requires a <= b < |turns|
    ensures var r := Releases(s, turns);
            r[b].through - r[a].through >= AudioOf(r, a, b)
    decreases b
  {
    hide Step;
    if a < b {
      ClockGrows(s, turns, a, b - 1);
      ReleaseAt(s, turns, b - 1);
      ReleaseAt(s, turns, b);
      assert turns[..b][..b - 1] == turns[..b - 1];
      StepFits(After(s, turns[..b - 1]), turns[b - 1]);
      StepFits(After(s, turns[..b]), turns[b]);
    }
  }

  /**
   Over every run, the audio released from turn a through turn b is at most the time from
   taking a to releasing b, the lead, the catch-up allowance and b's own length.
   */
  lemma RateBounded(s: Pace, turns: seq<Turn>, a: nat, b: nat)
    requires a <= b < |turns|
    ensures var r := Releases(s, turns);
            AudioOf(r, a, b + 1) <=
            r[b].released - r[a].taken + PLAYER_LEAD + MAX_CATCH_UP + MuLawDuration(r[b].bytes)
  {
    hide Step;
    ClockGrows(s, turns, a, b);
    ReleaseAt(s, turns, a);
    ReleaseAt(s, turns, b);
    StepFits(After(s, turns[..a]), turns[a]);
    StepFits(After(s, turns[..b]), turns[b]);
  }
}
