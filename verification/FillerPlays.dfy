/**
 That the filler does what it is for: an arm leaves a wait, a wait plays, and what the bridge and
 the farewell have to say goes out.
 */
module FillerPlays {
  import opened Common
  import opened CyclicClip
  import opened Filler
  import opened FillerCall
  import opened Telephony

  lemma Reached(a: Audio, steps: seq<Step>)
    requires |a.loop| > 0 && Legal(a, Opened(), steps)
    ensures Inv(a, After(a, Opened(), steps))
  {
    OpenedInv(a);
    InvThroughout(a, Opened(), steps);
  }

  // ---- from an arm to the loop ---------------------------------------------------------------------

  /**
   After an arm the call is waiting or playing, unless it is over: a wait under way is left as
   it is, and otherwise one begins that is due the whole delay from now.
   */
  lemma ArmLeavesAWait(a: Audio, c: Call)
    requires |a.loop| > 0
    ensures var n := Next(a, c, DrainArm);
            if c.f.timer.Some? || c.f.playing || c.f.stopped then n == c
            else
              && n.f.timer.Some? && n.f.timer.value.due == c.now + a.delay
              && |n.eps| == |c.eps| + 1 && n.eps[|c.eps|] == Episode(n.f.gen, c.now + a.delay, Waiting, [])
              && n.f.gen > c.f.gen
  {
  }

  /** A start that has not run is the pending one exactly when its generation is the live one. */
  ghost predicate WaitsLive(c: Call) {
    forall k :: 0 <= k < |c.eps| && c.eps[k].stage == Waiting && c.eps[k].gen == c.f.gen ==>
      c.f.timer == Some(Pending(c.eps[k].gen, c.eps[k].due))
  }

  /** Starts that stay as they are, or run, stay live: either nothing moved on, or every one is behind. */
  lemma WaitsCarry(c: Call, n: Call)
    requires WaitsLive(c) && Ordered(c) && |n.eps| == |c.eps|
    requires forall k :: 0 <= k < |c.eps| ==>
               n.eps[k].gen == c.eps[k].gen && n.eps[k].due == c.eps[k].due
               && (n.eps[k].stage == Waiting ==> c.eps[k].stage == Waiting)
    requires (n.f.gen == c.f.gen && n.f.timer == c.f.timer) || n.f.gen > c.f.gen
    ensures WaitsLive(n)
  {
  }

  lemma TimerWaits(c: Call, k: nat)
    requires WaitsLive(c) && Ordered(c) && k < |c.eps| && c.eps[k].stage == Waiting
    ensures WaitsLive(DoRunTimer(c, k))
  {
  }

  lemma ArmWaits(a: Audio, c: Call)
    requires WaitsLive(c) && Ordered(c)
    ensures WaitsLive(DoDrainArm(a, c))
  {
  }

  lemma WaitsLiveKept(a: Audio, c: Call, step: Step)
    requires |a.loop| > 0 && Enabled(a, c, step) && Generations(c) && WaitsLive(c)
    ensures WaitsLive(Next(a, c, step))
  {
    hide Frame, WaitsLive, Ordered, PlayingOwned, TimerLive, DoDrainArm, DoRunTimer;
    match step
    case DrainArm => ArmWaits(a, c);
    case RunTimer(k) => TimerWaits(c, k);
    case _ => WaitsCarry(c, Next(a, c, step));
  }

  lemma {:induction false} LiveThroughout(a: Audio, c: Call, steps: seq<Step>)
    requires |a.loop| > 0 && Legal(a, c, steps) && Inv(a, c) && WaitsLive(c)
    ensures Inv(a, After(a, c, steps)) && WaitsLive(After(a, c, steps))
    decreases |steps|
  {
    if steps != [] {
      hide Enabled, Next, WaitsLive, Clears, Farewells, Paid, EpisodesFit, GoodbyeFits, Ordered, TimerLive, PlayingOwned;
      InvKept(a, c, steps[0]);
      WaitsLiveKept(a, c, steps[0]);
      LiveThroughout(a, Next(a, c, steps[0]), steps[1..]);
    }
  }

  /**
   A start whose function runs begins the loop, from its head, exactly when it is the one pending;
   otherwise it does nothing.
   */
  lemma WaitStartsExactly(a: Audio, steps: seq<Step>, k: nat)
    requires |a.loop| > 0 && Legal(a, Opened(), steps) && Enabled(a, After(a, Opened(), steps), RunTimer(k))
    ensures var c := After(a, Opened(), steps);
            var n, e := Next(a, c, RunTimer(k)), c.eps[k];
            if c.f.timer == Some(Pending(e.gen, e.due))
            then n.f.playing && n.f.off == 0 && n.f.timer.None? && n.f.gen == e.gen && n.eps[k].stage == AtTick
            else n.f == c.f && n.eps[k].stage == Skipped
  {
    hide WaitsLive, Clears, Farewells, Paid, EpisodesFit, GoodbyeFits, Ordered, TimerLive, PlayingOwned;
    OpenedInv(a);
    OpenedWaits();
    LiveThroughout(a, Opened(), steps);
    StartsExactly(a, After(a, Opened(), steps), k);
  }

  lemma OpenedWaits()
    ensures WaitsLive(Opened())
  {
  }

  lemma StartsExactly(a: Audio, c: Call, k: nat)
    requires |a.loop| > 0 && Enabled(a, c, RunTimer(k)) && Generations(c) && WaitsLive(c)
    ensures Begins(c.f, c.eps[k].gen) <==> c.f.timer == Some(Pending(c.eps[k].gen, c.eps[k].due))
  {
  }

  /** What moves the live generation on: a stop, an arm that begins a wait, and the end of the episode that carries it. */
  predicate MovesOn(c: Call, step: Step) {
    match step
    case DrainArm => c.f.timer.None? && !c.f.playing && !c.f.stopped
    case PlayEnds(k) => k < |c.eps| && c.eps[k].gen == c.f.gen
    case RunTimer(_) => false
    case _ => EndsWait(c, step)
  }

  lemma GenerationMovesExactly(a: Audio, c: Call, step: Step)
    requires |a.loop| > 0 && Enabled(a, c, step)
    ensures Next(a, c, step).f.gen == c.f.gen + if MovesOn(c, step) then 1 else 0
  {
    hide SetStage, Frame;
  }

  /**
   A goroutine that asks for a frame gets the next stretch of the loop exactly while its generation
   is the live one, and otherwise leaves.
   */
  lemma FramesGoOutExactly(a: Audio, steps: seq<Step>, k: nat)
    requires |a.loop| > 0 && Legal(a, Opened(), steps) && Enabled(a, After(a, Opened(), steps), PlayAsk(k))
    ensures var c := After(a, Opened(), steps);
            var n, e := Next(a, c, PlayAsk(k)), c.eps[k];
            n.eps[k].stage == if e.gen == c.f.gen then Writing(Loop(a.loop, |e.sent|, FRAME_BYTES)) else Leaving
  {
    Reached(a, steps);
    hide Inv, Legal, After;
    AsksExactly(a, After(a, Opened(), steps), k);
  }

  lemma AsksExactly(a: Audio, c: Call, k: nat)
    requires |a.loop| > 0 && Inv(a, c) && Enabled(a, c, PlayAsk(k))
    ensures Next(a, c, PlayAsk(k)).eps[k].stage ==
            if c.eps[k].gen == c.f.gen then Writing(Loop(a.loop, |c.eps[k].sent|, FRAME_BYTES)) else Leaving
  {
    hide Clears, Farewells, Paid, GoodbyeFits, Ordered, TimerLive, Heard;
    assert EpisodeFits(a, c, c.eps[k]);
    LoopReduced(a.loop, |c.eps[k].sent|, FRAME_BYTES);
  }

  // ---- runs that get there -------------------------------------------------------------------------

  lemma ThenLegal(a: Audio, c: Call, step: Step, rest: seq<Step>)
    requires |a.loop| > 0 && Enabled(a, c, step) && Legal(a, Next(a, c, step), rest)
    ensures Legal(a, c, [step] + rest)
    ensures After(a, c, [step] + rest) == After(a, Next(a, c, step), rest)
  {
    assert ([step] + rest)[1..] == rest;
    hide Enabled, Next;
  }

  /** One frame of the loop: wait for the tick, ask, write. */
  function FrameSteps(k: nat): seq<Step> { [PlayTick(k), PlayAsk(k), PlayWritten(k)] }

  /**
   With the slot free, the live generation's goroutine puts the next stretch of the loop on the
   wire, and is back where it was.
   */
  lemma NextFrameGoesOut(a: Audio, c: Call, k: nat)
    requires |a.loop| > 0 && Inv(a, c) && c.slot == Free
    requires k < |c.eps| && c.eps[k].stage == AtTick && c.eps[k].gen == c.f.gen
    ensures Legal(a, c, FrameSteps(k))
    ensures var w, frame := After(a, c, FrameSteps(k)), Loop(a.loop, |c.eps[k].sent|, FRAME_BYTES);
            && w.wire == c.wire + [WFiller(c.eps[k].gen, frame)] && w.slot == Free && w.f.gen == c.f.gen
            && k < |w.eps| && w.eps[k] == c.eps[k].(sent := c.eps[k].sent + frame)
  {
    var c1 := Next(a, c, PlayTick(k));
    InvKept(a, c, PlayTick(k));
    AsksExactly(a, c1, k);
    hide Inv, Loop;
    var c2 := Next(a, c1, PlayAsk(k));
    var c3 := Next(a, c2, PlayWritten(k));
    ThenLegal(a, c2, PlayWritten(k), []);
    ThenLegal(a, c1, PlayAsk(k), [PlayWritten(k)]);
    ThenLegal(a, c, PlayTick(k), [PlayAsk(k), PlayWritten(k)]);
    assert [PlayTick(k)] + [PlayAsk(k), PlayWritten(k)] == FrameSteps(k);
    assert [PlayAsk(k)] + [PlayWritten(k)] == [PlayAsk(k), PlayWritten(k)];
  }

  /** A wait that is due, with the slot free, is a start and a frame away from the head of the loop on the wire. */
  lemma DueWaitPlays(a: Audio, c: Call)
    requires |a.loop| > 0 && Inv(a, c) && c.f.timer.Some? && c.now >= c.f.timer.value.due && c.slot == Free
    ensures c.eps != [] && c.f.timer.value.gen == c.eps[|c.eps| - 1].gen
    ensures var run := [RunTimer(|c.eps| - 1)] + FrameSteps(|c.eps| - 1);
            Legal(a, c, run)
            && After(a, c, run).wire == c.wire + [WFiller(c.f.gen, Loop(a.loop, 0, FRAME_BYTES))]
  {
    var k := |c.eps| - 1;
    PendingStarts(a, c);
    InvKept(a, c, RunTimer(k));
    hide Inv, Loop, Legal, After, FrameSteps;
    NextFrameGoesOut(a, Next(a, c, RunTimer(k)), k);
    ThenLegal(a, c, RunTimer(k), FrameSteps(k));
  }

  lemma PendingStarts(a: Audio, c: Call)
    requires |a.loop| > 0 && Inv(a, c) && c.f.timer.Some? && c.now >= c.f.timer.value.due
    ensures c.eps != [] && c.f.timer.value.gen == c.eps[|c.eps| - 1].gen == c.f.gen
    ensures var k := |c.eps| - 1;
            var n := Next(a, c, RunTimer(k));
            && Enabled(a, c, RunTimer(k)) && |n.eps| == |c.eps| && n.eps[k] == c.eps[k].(stage := AtTick) && n.eps[k].sent == []
            && n.f.gen == c.f.gen && n.wire == c.wire && n.slot == c.slot
  {
    hide Clears, Farewells, Paid, GoodbyeFits, Ordered, PlayingOwned, Heard, Loop;
    assert EpisodeFits(a, c, c.eps[|c.eps| - 1]);
  }

  // ---- a reply, and a barge-in ---------------------------------------------------------------------

  lemma TwoLegal(a: Audio, c: Call, x: Step, y: Step)
    requires |a.loop| > 0 && Enabled(a, c, x) && Enabled(a, Next(a, c, x), y)
    ensures Legal(a, c, [x, y]) && After(a, c, [x, y]) == Next(a, Next(a, c, x), y)
  {
    ThenLegal(a, Next(a, c, x), y, []);
    ThenLegal(a, c, x, [y]);
    assert [x] + [y] == [x, y] && [y] + [] == [y];
    hide Enabled, Next;
  }

  lemma {:induction false} ThenMore(a: Audio, c: Call, run: seq<Step>, more: seq<Step>)
    requires |a.loop| > 0 && Legal(a, c, run) && Legal(a, After(a, c, run), more)
    ensures Legal(a, c, run + more) && After(a, c, run + more) == After(a, After(a, c, run), more)
    decreases |run|
  {
    hide Enabled, Next;
    if run == [] {
      assert run + more == more;
    } else {
      ThenMore(a, Next(a, c, run[0]), run[1..], more);
      assert (run + more)[1..] == run[1..] + more;
    }
  }

  /** A clear whose gate is open goes out, tagged with what was live, and leaves the loop stopped. */
  const CLEAR_STEPS := [BridgeStep, BridgeStep] + [BridgeStep, BridgeStep]

  lemma ClearGoesOut(a: Audio, c: Call, rest: Rest)
    requires |a.loop| > 0 && c.bridge == BClearGate(rest) && c.slot == Free && !c.farewelling
    ensures Legal(a, c, CLEAR_STEPS)
    ensures var w := After(a, c, CLEAR_STEPS);
            && w.wire == c.wire + [WClear(c.f.gen)] && w.bridge == AfterClear(rest) && w.slot == Free
            && !w.farewelling && !w.f.playing && w.f.timer.None?
  {
    TwoLegal(a, c, BridgeStep, BridgeStep);
    var d := After(a, c, [BridgeStep, BridgeStep]);
    TwoLegal(a, d, BridgeStep, BridgeStep);
    hide Legal, After;
    ThenMore(a, c, [BridgeStep, BridgeStep], [BridgeStep, BridgeStep]);
  }

  lemma ReplyGoesOut(a: Audio, c: Call, ended: Option<nat>)
    requires |a.loop| > 0 && c.bridge == BMediaSlot(ended) && c.slot == Free && !c.farewelling
    ensures Legal(a, c, [BridgeStep, BridgeStep])
    ensures After(a, c, [BridgeStep, BridgeStep]) == c.(wire := c.wire + [WReply(ended)], bridge := BIdle)
  {
    TwoLegal(a, c, BridgeStep, BridgeStep);
    hide Legal, After;
  }

  /** The bridge's steps for one piece of media: a clear first when it finds the loop playing. */
  function MediaSteps(playing: bool): seq<Step> {
    [BridgeMedia, BridgeStep] + (if playing then CLEAR_STEPS else []) + [BridgeStep, BridgeStep]
  }

  /** Media reaches the wire: alone if the loop was off, and otherwise right behind the clear that ends the loop. */
  lemma MediaReachesWire(a: Audio, c: Call)
    requires |a.loop| > 0 && c.bridge == BIdle && c.slot == Free && !c.farewelling
    ensures Legal(a, c, MediaSteps(c.f.playing))
    ensures var w := After(a, c, MediaSteps(c.f.playing));
            && w.bridge == BIdle && w.slot == Free && !w.f.playing && w.f.timer.None?
            && if c.f.playing
               then w.wire == c.wire + [WClear(c.f.gen + 1)] + [WReply(Some(c.f.gen))]
               else w.wire == c.wire + [WReply(None)]
  {
    TwoLegal(a, c, BridgeMedia, BridgeStep);
    var d := After(a, c, [BridgeMedia, BridgeStep]);
    if c.f.playing {
      var rest := Reply(Some(c.f.gen));
      ClearGoesOut(a, d, rest);
      ReplyGoesOut(a, After(a, d, CLEAR_STEPS), rest.ended);
      hide Legal, After, Enabled, Next;
      ThenMore(a, c, [BridgeMedia, BridgeStep], CLEAR_STEPS);
      ThenMore(a, c, [BridgeMedia, BridgeStep] + CLEAR_STEPS, [BridgeStep, BridgeStep]);
    } else {
      ReplyGoesOut(a, d, None);
      hide Legal, After, Enabled, Next;
      ThenMore(a, c, [BridgeMedia, BridgeStep], [BridgeStep, BridgeStep]);
      assert [BridgeMedia, BridgeStep] + [] == [BridgeMedia, BridgeStep];
    }
  }

  // ---- the farewell --------------------------------------------------------------------------------

  /** A farewell that ends of itself, and not on a failed write, has put its whole clip on the wire. */
  lemma FarewellFinishesWhole(a: Audio, steps: seq<Step>)
    requires |a.loop| > 0 && Legal(a, Opened(), steps) && Enabled(a, After(a, Opened(), steps), FareStep)
    requires Next(a, After(a, Opened(), steps), FareStep).fare == FDone
    ensures Goodbyes(After(a, Opened(), steps).wire) == a.farewell
  {
    Reached(a, steps);
    hide Legal, After, Generations, Clears, Farewells, Paid, EpisodesFit, Goodbyes;
    var c := After(a, Opened(), steps);
    assert a.farewell[..|a.farewell|] == a.farewell;
  }

  /** With the slot free the farewell gets through its clip, frame by frame. */
  lemma {:induction false} ClipRuns(a: Audio, c: Call, at: nat) returns (run: seq<Step>)
    requires |a.loop| > 0 && c.fare == FClip(at) && at <= |a.farewell| && c.slot == Free
    ensures Legal(a, c, run) && After(a, c, run).fare == FDone
    ensures forall k :: 0 <= k < |run| ==> run[k] == FareStep
    decreases |a.farewell| - at
  {
    if at == |a.farewell| {
      run := [FareStep];
      ThenLegal(a, c, FareStep, []);
      assert [FareStep] + [] == run;
    } else {
      TwoLegal(a, c, FareStep, FareStep);
      var d := After(a, c, [FareStep, FareStep]);
      var rest := ClipRuns(a, d, Min(at + FRAME_BYTES, |a.farewell|));
      hide Legal, After;
      ThenMore(a, c, [FareStep, FareStep], rest);
      run := [FareStep, FareStep] + rest;
    }
  }
}
