/**
 The filler in its call: the event drain arming it, its timer callbacks, its play goroutines,
 the bridge's Media and Clear, and the farewell, all writing one wire through one write slot.
 */
module FillerCall {
  import opened Common
  import opened CyclicClip
  import opened Filler
  import opened Telephony

  /**
   What reaches the carrier. A clear is tagged with the last generation it was sent to end,
   and a reply frame with the generation its own Media call found playing, if it did.
   */
  datatype Item =
    | WFiller(gen: nat, frame: seq<Byte>)
    | WClear(tag: nat)
    | WReply(ended: Option<nat>)
    | WFarewell(frame: seq<Byte>)

  /** One scheduled start and what became of it: its timer, then its play goroutine. */
  datatype Stage =
    | Waiting                       // the timer's function has not run, cancelled or not
    | Skipped
    | AtTick
    | WantsSlot
    | Writing(frame: seq<Byte>)     // admitted, and holding the slot
    | Leaving                       // returned, endEpisode still to run
    | Exited

  datatype Episode = Episode(gen: nat, due: nat, stage: Stage, sent: seq<Byte>)

  /** What follows a clear: nothing for a barge-in, the reply frame for Media. */
  datatype Rest = Return | Reply(ended: Option<nat>)

  datatype BridgePc =
    | BIdle
    | BMediaStop
    | BClearGate(rest: Rest)
    | BClearStop(rest: Rest)
    | BClearSlot(tag: nat, rest: Rest)
    | BMediaSlot(ended: Option<nat>)
    | BWriting(item: Item, rest: Rest)
    | BDone

  datatype FarePc =
    | FIdle
    | FClearStop
    | FClearSlot(tag: nat)
    | FClearing(tag: nat)
    | FFlag
    | FShutdown
    | FClip(at: nat)
    | FFrame(at: nat)
    | FDone

  datatype Holder = Free | ByPlay(k: nat) | ByBridge | ByFarewell

  /** `begun` is the generation that was live when the farewell began. */
  datatype Call = Call(
    f: Machine, eps: seq<Episode>, wire: seq<Item>,
    bridge: BridgePc, fare: FarePc, begun: Option<nat>, farewelling: bool, slot: Holder, now: nat)

  datatype Audio = Audio(loop: seq<Byte>, farewell: seq<Byte>, delay: nat)

  function Opened(): Call { Call(NEW_MACHINE, [], [], BIdle, FIdle, None, false, Free, 0) }

  datatype Step =
    | DrainArm
    | DrainStop
    | RunTimer(k: nat)
    | PlayTick(k: nat)
    | PlayAsk(k: nat)
    | PlayWritten(k: nat)
    | PlayFails(k: nat)
    | PlayEnds(k: nat)
    | BridgeMedia
    | BridgeClear
    | BridgeStep
    | BridgeFails
    | FareStart
    | FareStep
    | FareFails
    | EndOfCall
    | Tick(d: nat)

  predicate Playing(s: Stage) { s.AtTick? || s.WantsSlot? || s.Writing? }

  /** A play goroutine that has not exited. */
  predicate Live(s: Stage) { Playing(s) || s.Leaving? }

  predicate BridgeNeedsSlot(pc: BridgePc) { pc.BClearSlot? || pc.BMediaSlot? }

  predicate FareNeedsSlot(a: Audio, pc: FarePc) { pc.FClearSlot? || (pc.FClip? && pc.at < |a.farewell|) }

  predicate Enabled(a: Audio, c: Call, step: Step) {
    match step
    case RunTimer(k) => k < |c.eps| && c.eps[k].stage == Waiting && c.now >= c.eps[k].due
    case PlayTick(k) => k < |c.eps| && c.eps[k].stage == AtTick
    case PlayAsk(k) => k < |c.eps| && c.eps[k].stage == WantsSlot && c.slot == Free
    case PlayWritten(k) => k < |c.eps| && c.eps[k].stage.Writing?
    case PlayFails(k) => k < |c.eps| && Playing(c.eps[k].stage)
    case PlayEnds(k) => k < |c.eps| && c.eps[k].stage == Leaving
    case BridgeMedia => c.bridge == BIdle
    case BridgeClear => c.bridge == BIdle
    case BridgeStep => c.bridge != BIdle && c.bridge != BDone && (BridgeNeedsSlot(c.bridge) ==> c.slot == Free)
    case BridgeFails => c.bridge.BWriting? || BridgeNeedsSlot(c.bridge)
    case FareStart => c.fare == FIdle && a.farewell != []
    case FareStep => c.fare != FIdle && c.fare != FDone && (FareNeedsSlot(a, c.fare) ==> c.slot == Free)
    case FareFails => c.fare.FClearing? || c.fare.FFrame? || c.fare.FClearSlot? || c.fare.FClip?
    case _ => true
  }

  function SetStage(eps: seq<Episode>, k: nat, stage: Stage): seq<Episode>
    requires k < |eps|
  {
    eps[k := eps[k].(stage := stage)]
  }

  function DoDrainArm(a: Audio, c: Call): Call {
    var f := Arm(c.f, c.now + a.delay);
    if Arms(c.f) then c.(f := f, eps := c.eps + [Episode(f.gen, c.now + a.delay, Waiting, [])]) else c
  }

  function DoRunTimer(c: Call, k: nat): Call
    requires k < |c.eps|
  {
    var g := c.eps[k].gen;
    c.(f := Start(c.f, g), eps := SetStage(c.eps, k, if Begins(c.f, g) then AtTick else Skipped))
  }

  function DoPlayAsk(a: Audio, c: Call, k: nat): Call
    requires k < |c.eps| && |a.loop| > 0
  {
    if Admits(c.f, c.eps[k].gen)
    then c.(f := TakeFrame(a.loop, c.f), slot := ByPlay(k),
            eps := SetStage(c.eps, k, Writing(Frame(a.loop, c.f))))
    else c.(eps := SetStage(c.eps, k, Leaving))
  }

  function DoPlayWritten(c: Call, k: nat): Call
    requires k < |c.eps| && c.eps[k].stage.Writing?
  {
    var e := c.eps[k];
    c.(wire := c.wire + [WFiller(e.gen, e.stage.frame)], slot := Free,
       eps := c.eps[k := e.(stage := AtTick, sent := e.sent + e.stage.frame)])
  }

  function DoPlayFails(c: Call, k: nat): Call
    requires k < |c.eps|
  {
    c.(slot := if c.eps[k].stage.Writing? then Free else c.slot, eps := SetStage(c.eps, k, Leaving))
  }

  function DoPlayEnds(c: Call, k: nat): Call
    requires k < |c.eps|
  {
    c.(f := EndEpisode(c.f, c.eps[k].gen), eps := SetStage(c.eps, k, Exited))
  }

  function AfterClear(rest: Rest): BridgePc { if rest.Reply? then BMediaSlot(rest.ended) else BIdle }

  function DoBridge(c: Call): Call {
    match c.bridge
    case BMediaStop =>
      c.(f := Stop(c.f),
         bridge := if c.f.playing then BClearGate(Reply(Some(c.f.gen))) else BMediaSlot(None))
    case BClearGate(rest) =>
      c.(bridge := if c.farewelling then AfterClear(rest) else BClearStop(rest))
    case BClearStop(rest) =>
      c.(f := Stop(c.f), bridge := BClearSlot(c.f.gen, rest))
    case BClearSlot(tag, rest) =>
      if c.farewelling then c.(bridge := AfterClear(rest))
      else c.(slot := ByBridge, bridge := BWriting(WClear(tag), rest))
    case BMediaSlot(ended) =>
      if c.farewelling then c.(bridge := BIdle)
      else c.(slot := ByBridge, bridge := BWriting(WReply(ended), Return))
    case BWriting(item, rest) =>
      c.(wire := c.wire + [item], slot := Free, bridge := AfterClear(rest))
    case _ => c
  }

  function DoFare(a: Audio, c: Call): Call {
    match c.fare
    case FClearStop => c.(f := Stop(c.f), fare := FClearSlot(c.f.gen))
    case FClearSlot(tag) => c.(slot := ByFarewell, fare := FClearing(tag))
    case FClearing(tag) => c.(wire := c.wire + [WClear(tag)], slot := Free, fare := FFlag)
    case FFlag => c.(farewelling := true, fare := FShutdown)
    case FShutdown => c.(f := Shutdown(c.f), fare := FClip(0))
    case FClip(at) =>
      if at < |a.farewell| then c.(slot := ByFarewell, fare := FFrame(at)) else c.(fare := FDone)
    case FFrame(at) =>
      if at > |a.farewell| then c
      else
        var end := Min(at + FRAME_BYTES, |a.farewell|);
        c.(wire := c.wire + [WFarewell(a.farewell[at..end])], slot := Free, fare := FClip(end))
    case _ => c
  }

  function Next(a: Audio, c: Call, step: Step): Call
    requires |a.loop| > 0 && Enabled(a, c, step)
  {
    match step
    case DrainArm => DoDrainArm(a, c)
    case DrainStop => c.(f := Stop(c.f))
    case RunTimer(k) => DoRunTimer(c, k)
    case PlayTick(k) => c.(eps := SetStage(c.eps, k, WantsSlot))
    case PlayAsk(k) => DoPlayAsk(a, c, k)
    case PlayWritten(k) => DoPlayWritten(c, k)
    case PlayFails(k) => DoPlayFails(c, k)
    case PlayEnds(k) => DoPlayEnds(c, k)
    case BridgeMedia => c.(bridge := if c.farewelling then BIdle else BMediaStop)
    case BridgeClear => c.(bridge := BClearGate(Return))
    case BridgeStep => DoBridge(c)
    case BridgeFails => c.(slot := if c.bridge.BWriting? then Free else c.slot, bridge := BDone)
    case FareStart => c.(f := Stop(c.f), fare := FClearStop, begun := Some(c.f.gen))
    case FareStep => DoFare(a, c)
    case FareFails =>
      c.(slot := if c.fare.FClearing? || c.fare.FFrame? then Free else c.slot, fare := FDone)
    case EndOfCall => c.(f := Shutdown(c.f))
    case Tick(d) => c.(now := c.now + d)
  }

  ghost predicate Legal(a: Audio, c: Call, steps: seq<Step>)
    requires |a.loop| > 0
    decreases |steps|
  {
    steps == [] || (Enabled(a, c, steps[0]) && Legal(a, Next(a, c, steps[0]), steps[1..]))
  }

  ghost function After(a: Audio, c: Call, steps: seq<Step>): Call
    requires |a.loop| > 0 && Legal(a, c, steps)
    decreases |steps|
  {
    if steps == [] then c else After(a, Next(a, c, steps[0]), steps[1..])
  }

  // ---- generations -----------------------------------------------------------------------------

  /** Starts are scheduled under strictly growing generations. */
  ghost predicate Ordered(c: Call) {
    && (forall i, j :: 0 <= i < j < |c.eps| ==> c.eps[i].gen < c.eps[j].gen)
    && (forall k :: 0 <= k < |c.eps| ==> c.eps[k].gen <= c.f.gen)
  }

  /** A pending timer is the live generation's own start, and nothing plays beside it. */
  ghost predicate TimerLive(c: Call) {
    c.f.timer.Some? ==>
      && !c.f.playing && !c.f.stopped && c.eps != []
      && var e := c.eps[|c.eps| - 1];
         e.stage == Waiting && e.gen == c.f.gen && c.f.timer.value == Pending(e.gen, e.due)
  }

  /** The loop is on exactly while the live generation's goroutine has not exited. */
  ghost predicate PlayingOwned(c: Call) {
    && (c.f.playing ==> c.eps != [] && c.eps[|c.eps| - 1].gen == c.f.gen && Live(c.eps[|c.eps| - 1].stage))
    && (forall k :: 0 <= k < |c.eps| && Live(c.eps[k].stage) && c.eps[k].gen == c.f.gen ==> c.f.playing)
    && (c.f.stopped ==> !c.f.playing)
  }

  ghost predicate Generations(c: Call) { Ordered(c) && TimerLive(c) && PlayingOwned(c) }

  lemma ArmKeeps(a: Audio, c: Call)
    requires Generations(c)
    ensures Generations(DoDrainArm(a, c))
  {
  }

  lemma RunTimerKeeps(c: Call, k: nat)
    requires Generations(c) && k < |c.eps| && c.eps[k].stage == Waiting
    ensures Generations(DoRunTimer(c, k))
  {
  }

  lemma StageKeeps(c: Call, n: Call, k: nat, stage: Stage)
    requires Generations(c) && k < |c.eps| && Live(c.eps[k].stage) && Live(stage)
    requires n.f == c.f.(off := n.f.off) && |n.eps| == |c.eps| && n.eps == c.eps[k := n.eps[k]]
    requires n.eps[k].gen == c.eps[k].gen && n.eps[k].stage == stage
    ensures Generations(n)
  {
  }

  lemma PlayEndsKeeps(c: Call, k: nat)
    requires Generations(c) && k < |c.eps| && c.eps[k].stage == Leaving
    ensures Generations(DoPlayEnds(c, k))
  {
  }

  lemma StopKeeps(c: Call, n: Call)
    requires Generations(c) && n.eps == c.eps && (n.f == Stop(c.f) || n.f == Shutdown(c.f) || n.f == c.f)
    ensures Generations(n)
  {
  }

  lemma GenerationsKept(a: Audio, c: Call, step: Step)
    requires |a.loop| > 0 && Enabled(a, c, step) && Generations(c)
    ensures Generations(Next(a, c, step))
  {
    hide Generations;
    var n := Next(a, c, step);
    match step
    case DrainArm => ArmKeeps(a, c);
    case RunTimer(k) => RunTimerKeeps(c, k);
    case PlayTick(k) => StageKeeps(c, n, k, WantsSlot);
    case PlayAsk(k) => StageKeeps(c, n, k, n.eps[k].stage);
    case PlayWritten(k) => StageKeeps(c, n, k, AtTick);
    case PlayFails(k) => StageKeeps(c, n, k, Leaving);
    case PlayEnds(k) => PlayEndsKeeps(c, k);
    case _ => StopKeeps(c, n);
  }

  // ---- the write slot --------------------------------------------------------------------------

  predicate FareWrites(pc: FarePc) { pc.FClearing? || pc.FFrame? }

  /** One writer at a time, and the slot says which. */
  ghost predicate SlotHeld(c: Call) {
    && (forall k :: 0 <= k < |c.eps| ==> (c.eps[k].stage.Writing? <==> c.slot == ByPlay(k)))
    && (c.slot.ByPlay? ==> c.slot.k < |c.eps|)
    && (c.bridge.BWriting? <==> c.slot == ByBridge)
    && (FareWrites(c.fare) <==> c.slot == ByFarewell)
  }

  lemma PlaySlot(a: Audio, c: Call, k: nat)
    requires |a.loop| > 0 && SlotHeld(c) && k < |c.eps|
    ensures c.slot == Free ==> SlotHeld(DoPlayAsk(a, c, k))
    ensures c.eps[k].stage.Writing? ==> SlotHeld(DoPlayWritten(c, k))
    ensures SlotHeld(DoPlayFails(c, k))
  {
    hide Frame, TakeFrame, Admits;
  }

  lemma BridgeSlot(c: Call)
    requires SlotHeld(c) && (BridgeNeedsSlot(c.bridge) ==> c.slot == Free)
    ensures SlotHeld(DoBridge(c))
  {
  }

  lemma FareSlot(a: Audio, c: Call)
    requires SlotHeld(c) && (FareNeedsSlot(a, c.fare) ==> c.slot == Free)
    ensures SlotHeld(DoFare(a, c)) || DoFare(a, c) == c
  {
  }

  lemma SlotKept(a: Audio, c: Call, step: Step)
    requires |a.loop| > 0 && Enabled(a, c, step) && SlotHeld(c)
    ensures SlotHeld(Next(a, c, step))
  {
    hide DoPlayAsk, DoPlayWritten, DoPlayFails, DoBridge, DoFare, Start, Begins, Arm, Arms, Stop, Shutdown, EndEpisode;
    match step
    case PlayAsk(k) => PlaySlot(a, c, k);
    case PlayWritten(k) => PlaySlot(a, c, k);
    case PlayFails(k) => PlaySlot(a, c, k);
    case BridgeStep => BridgeSlot(c);
    case FareStep => FareSlot(a, c);
    case _ =>
  }

  // ---- clears ------------------------------------------------------------------------------------

  /** No filler frame of a cleared generation comes after its clear. */
  ghost predicate NothingAfterClear(wire: seq<Item>) {
    forall i, j :: 0 <= i < j < |wire| && wire[i].WClear? && wire[j].WFiller? ==> wire[j].gen > wire[i].tag
  }

  /** A clear on the wire or on its way is behind the live generation, and behind any frame being written. */
  ghost predicate ClearsBehind(c: Call) {
    && (forall i :: 0 <= i < |c.wire| && c.wire[i].WClear? ==> c.wire[i].tag < c.f.gen)
    && (c.slot.ByPlay? && c.slot.k < |c.eps| ==>
          forall i :: 0 <= i < |c.wire| && c.wire[i].WClear? ==> c.wire[i].tag < c.eps[c.slot.k].gen)
    && (c.bridge.BClearSlot? ==> c.bridge.tag < c.f.gen)
    && (c.bridge.BWriting? && c.bridge.item.WClear? ==> c.bridge.item.tag < c.f.gen)
    && (c.bridge.BWriting? ==> !c.bridge.item.WFiller?)
    && (c.fare.FClearSlot? || c.fare.FClearing? ==> c.fare.tag < c.f.gen)
  }

  ghost predicate Clears(c: Call) { SlotHeld(c) && NothingAfterClear(c.wire) && ClearsBehind(c) }

  lemma ClearsKept(a: Audio, c: Call, step: Step)
    requires |a.loop| > 0 && Enabled(a, c, step) && Clears(c)
    ensures NothingAfterClear(Next(a, c, step).wire) && ClearsBehind(Next(a, c, step))
  {
    hide DoDrainArm, DoRunTimer, DoPlayAsk, DoPlayWritten, DoPlayFails, DoPlayEnds, DoBridge, DoFare;
    match step
    case DrainArm => ArmClears(a, c);
    case RunTimer(k) => TimerClears(c, k);
    case PlayAsk(k) => AskClears(a, c, k);
    case PlayWritten(k) => WrittenClears(c, k);
    case PlayFails(k) => FailsClears(c, k);
    case PlayEnds(k) => EndsClears(c, k);
    case BridgeStep => BridgeClears(c);
    case FareStep => FareClears(a, c);
    case _ =>
      hide SlotHeld, NothingAfterClear;
  }

  ghost predicate StillClear(c: Call) { NothingAfterClear(c.wire) && ClearsBehind(c) }

  lemma ArmClears(a: Audio, c: Call)
    requires Clears(c)
    ensures StillClear(DoDrainArm(a, c))
  {
  }

  lemma TimerClears(c: Call, k: nat)
    requires Clears(c) && k < |c.eps|
    ensures StillClear(DoRunTimer(c, k))
  {
  }

  lemma AskClears(a: Audio, c: Call, k: nat)
    requires |a.loop| > 0 && Clears(c) && k < |c.eps| && c.slot == Free
    ensures StillClear(DoPlayAsk(a, c, k))
  {
    hide Frame;
  }

  lemma WrittenClears(c: Call, k: nat)
    requires Clears(c) && k < |c.eps| && c.eps[k].stage.Writing?
    ensures StillClear(DoPlayWritten(c, k))
  {
  }

  lemma FailsClears(c: Call, k: nat)
    requires Clears(c) && k < |c.eps|
    ensures StillClear(DoPlayFails(c, k))
  {
  }

  lemma EndsClears(c: Call, k: nat)
    requires Clears(c) && k < |c.eps|
    ensures StillClear(DoPlayEnds(c, k))
  {
  }

  lemma BridgeClears(c: Call)
    requires Clears(c) && (BridgeNeedsSlot(c.bridge) ==> c.slot == Free)
    ensures StillClear(DoBridge(c))
  {
  }

  lemma FareClears(a: Audio, c: Call)
    requires Clears(c) && (FareNeedsSlot(a, c.fare) ==> c.slot == Free)
    ensures StillClear(DoFare(a, c))
  {
  }

  // ---- the farewell --------------------------------------------------------------------------------

  /** Past its shutdown, the farewell has the machine latched off and both gates closed. */
  predicate Goodbye(pc: FarePc) { pc.FClip? || pc.FFrame? }

  ghost predicate FarewellLast(wire: seq<Item>) {
    forall i, j :: 0 <= i < j < |wire| && wire[i].WFarewell? ==> wire[j].WFarewell?
  }

  ghost predicate FarewellAlone(c: Call) {
    && (c.fare == FShutdown || Goodbye(c.fare) ==> c.farewelling)
    && (Goodbye(c.fare) ==> c.f.stopped)
    && ((exists i :: 0 <= i < |c.wire| && c.wire[i].WFarewell?) ==>
          c.farewelling && c.f.stopped && !c.bridge.BWriting? && !c.slot.ByPlay? && !c.fare.FClearing?
          && (Goodbye(c.fare) || c.fare == FDone))
    && (c.bridge.BWriting? ==> !c.bridge.item.WFarewell?)
  }

  ghost predicate Farewells(c: Call) { SlotHeld(c) && FarewellLast(c.wire) && FarewellAlone(c) }

  ghost predicate StillLast(c: Call) { FarewellLast(c.wire) && FarewellAlone(c) }

  lemma PlayFarewells(a: Audio, c: Call, k: nat)
    requires |a.loop| > 0 && Farewells(c) && k < |c.eps|
    ensures c.slot == Free ==> StillLast(DoPlayAsk(a, c, k))
    ensures c.eps[k].stage.Writing? ==> StillLast(DoPlayWritten(c, k))
    ensures StillLast(DoPlayFails(c, k))
  {
    hide Frame;
  }

  lemma BridgeFarewells(c: Call)
    requires Farewells(c) && (BridgeNeedsSlot(c.bridge) ==> c.slot == Free)
    ensures StillLast(DoBridge(c))
  {
  }

  lemma FareFarewells(a: Audio, c: Call)
    requires Farewells(c) && (FareNeedsSlot(a, c.fare) ==> c.slot == Free)
    ensures StillLast(DoFare(a, c))
  {
  }

  lemma FarewellsKept(a: Audio, c: Call, step: Step)
    requires |a.loop| > 0 && Enabled(a, c, step) && Farewells(c)
    ensures FarewellLast(Next(a, c, step).wire) && FarewellAlone(Next(a, c, step))
  {
    hide Frame, DoPlayAsk, DoPlayWritten, DoPlayFails, DoBridge, DoFare;
    match step
    case PlayAsk(k) => PlayFarewells(a, c, k);
    case PlayWritten(k) => PlayFarewells(a, c, k);
    case PlayFails(k) => PlayFarewells(a, c, k);
    case BridgeStep => BridgeFarewells(c);
    case FareStep => FareFarewells(a, c);
    case _ =>
  }

  // ---- the clears that are owed ----------------------------------------------------------------

  /** Before position j the wire carries a clear of this generation or a later one. */
  ghost predicate ClearedBefore(wire: seq<Item>, j: nat, gen: nat) {
    exists i :: 0 <= i < j && i < |wire| && wire[i].WClear? && wire[i].tag >= gen
  }

  ghost predicate RepliesCleared(wire: seq<Item>) {
    forall j :: 0 <= j < |wire| && wire[j].WReply? && wire[j].ended.Some? ==> ClearedBefore(wire, j, wire[j].ended.value)
  }

  ghost predicate FarewellCleared(wire: seq<Item>, begun: Option<nat>) {
    forall j :: 0 <= j < |wire| && wire[j].WFarewell? ==> begun.Some? && ClearedBefore(wire, j, begun.value)
  }

  predicate OwesReply(rest: Rest) { rest.Reply? && rest.ended.Some? }

  /** Media on its way to a reply has sent the clear it owes, or still will, or will send nothing. */
  ghost predicate BridgePays(c: Call) {
    match c.bridge
    case BClearGate(rest) => OwesReply(rest) ==> rest.ended.value < c.f.gen
    case BClearStop(rest) => OwesReply(rest) ==> rest.ended.value < c.f.gen
    case BClearSlot(tag, rest) => OwesReply(rest) ==> rest.ended.value <= tag
    case BMediaSlot(ended) => ended.Some? ==> c.farewelling || ClearedBefore(c.wire, |c.wire|, ended.value)
    case BWriting(item, rest) =>
      && !item.WFarewell?
      && (item.WReply? ==> rest == Return
                           && (item.ended.Some? ==> ClearedBefore(c.wire, |c.wire|, item.ended.value)))
      && (OwesReply(rest) ==> item.WClear? && rest.ended.value <= item.tag)
    case _ => true
  }

  ghost predicate FarewellPays(c: Call) {
    match c.fare
    case FIdle => true
    case FDone => true
    case FClearStop => c.begun.Some? && c.begun.value < c.f.gen
    case FClearSlot(tag) => c.begun.Some? && c.begun.value <= tag
    case FClearing(tag) => c.begun.Some? && c.begun.value <= tag
    case _ => c.begun.Some? && ClearedBefore(c.wire, |c.wire|, c.begun.value)
  }

  /** The farewell begins once, so what it owes does not change under it. */
  ghost predicate BegunOnce(c: Call) { c.fare == FIdle ==> forall j :: 0 <= j < |c.wire| ==> !c.wire[j].WFarewell? }

  ghost predicate Paid(c: Call) {
    RepliesCleared(c.wire) && FarewellCleared(c.wire, c.begun) && BridgePays(c) && FarewellPays(c) && BegunOnce(c)
  }

  lemma ClearedStays(wire: seq<Item>, item: Item, j: nat, gen: nat)
    requires ClearedBefore(wire, j, gen) && j <= |wire|
    ensures ClearedBefore(wire + [item], j, gen) && ClearedBefore(wire + [item], |wire| + 1, gen)
  {
    var i :| 0 <= i < j && i < |wire| && wire[i].WClear? && wire[i].tag >= gen;
    assert (wire + [item])[i] == wire[i];
  }

  /** One more item keeps what is paid, when the item itself is. */
  lemma WirePaid(wire: seq<Item>, item: Item, begun: Option<nat>)
    requires RepliesCleared(wire) && FarewellCleared(wire, begun)
    requires item.WReply? && item.ended.Some? ==> ClearedBefore(wire, |wire|, item.ended.value)
    requires item.WFarewell? ==> begun.Some? && ClearedBefore(wire, |wire|, begun.value)
    ensures RepliesCleared(wire + [item]) && FarewellCleared(wire + [item], begun)
    ensures forall g :: ClearedBefore(wire, |wire|, g) ==> ClearedBefore(wire + [item], |wire| + 1, g)
  {
    var n := wire + [item];
    forall g | ClearedBefore(wire, |wire|, g)
      ensures ClearedBefore(n, |wire| + 1, g)
    {
      ClearedStays(wire, item, |wire|, g);
    }
    forall j, g | 0 <= j <= |wire| && ClearedBefore(wire, j, g)
      ensures ClearedBefore(n, j, g)
    {
      ClearedStays(wire, item, j, g);
    }
    hide ClearedBefore;
    assert n[|wire|] == item;
  }

  lemma ClearCounts(wire: seq<Item>, item: Item, g: nat)
    requires item.WClear? && g <= item.tag
    ensures ClearedBefore(wire + [item], |wire| + 1, g)
  {
    assert (wire + [item])[|wire|] == item;
  }

  lemma WrittenPaid(c: Call, k: nat)
    requires Paid(c) && k < |c.eps| && c.eps[k].stage.Writing?
    ensures Paid(DoPlayWritten(c, k))
  {
    hide ClearedBefore, RepliesCleared, FarewellCleared;
    WirePaid(c.wire, WFiller(c.eps[k].gen, c.eps[k].stage.frame), c.begun);
  }

  lemma BridgePaid(c: Call)
    requires Paid(c)
    ensures Paid(DoBridge(c))
  {
    hide ClearedBefore, RepliesCleared, FarewellCleared;
    if c.bridge.BWriting? {
      WirePaid(c.wire, c.bridge.item, c.begun);
      if OwesReply(c.bridge.rest) {
        ClearCounts(c.wire, c.bridge.item, c.bridge.rest.ended.value);
      }
    }
  }

  lemma FarePaid(a: Audio, c: Call)
    requires Paid(c)
    ensures Paid(DoFare(a, c))
  {
    hide ClearedBefore, RepliesCleared, FarewellCleared;
    match c.fare
    case FClearing(tag) =>
      WirePaid(c.wire, WClear(tag), c.begun);
      ClearCounts(c.wire, WClear(tag), c.begun.value);
    case FFrame(at) =>
      if at <= |a.farewell| {
        WirePaid(c.wire, WFarewell(a.farewell[at..Min(at + FRAME_BYTES, |a.farewell|)]), c.begun);
      }
    case _ =>
  }

  lemma StartPaid(c: Call)
    requires Paid(c) && c.fare == FIdle
    ensures Paid(c.(f := Stop(c.f), fare := FClearStop, begun := Some(c.f.gen)))
  {
    hide ClearedBefore;
  }

  /** Steps that leave the wire and both writers alone, and never lower the generation, owe nothing new. */
  lemma PaidCarries(c: Call, n: Call)
    requires Paid(c) && n.wire == c.wire && n.bridge == c.bridge && n.fare == c.fare && n.begun == c.begun
    requires n.farewelling == c.farewelling && c.f.gen <= n.f.gen
    ensures Paid(n)
  {
    hide ClearedBefore, RepliesCleared, FarewellCleared;
  }

  lemma PaidKept(a: Audio, c: Call, step: Step)
    requires |a.loop| > 0 && Enabled(a, c, step) && Paid(c)
    ensures Paid(Next(a, c, step))
  {
    hide Frame, SetStage, ClearedBefore, RepliesCleared, FarewellCleared, DoPlayWritten, DoBridge, DoFare;
    match step
    case PlayWritten(k) => WrittenPaid(c, k);
    case BridgeStep => BridgePaid(c);
    case FareStart => StartPaid(c);
    case FareStep => FarePaid(a, c);
    case BridgeMedia =>
    case BridgeClear =>
    case BridgeFails =>
    case FareFails =>
    case _ =>
      hide Paid;
      PaidCarries(c, Next(a, c, step));
  }

  // ---- what is heard -------------------------------------------------------------------------------

  /** The filler bytes one episode put on the wire, in order. */
  function Heard(wire: seq<Item>, gen: nat): seq<Byte> {
    if wire == [] then []
    else
      var last := wire[|wire| - 1];
      Heard(wire[..|wire| - 1], gen) + if last.WFiller? && last.gen == gen then last.frame else []
  }

  /** The farewell bytes on the wire, in order. */
  function Goodbyes(wire: seq<Item>): seq<Byte> {
    if wire == [] then []
    else
      var last := wire[|wire| - 1];
      Goodbyes(wire[..|wire| - 1]) + if last.WFarewell? then last.frame else []
  }

  lemma HeardMore(wire: seq<Item>, item: Item, gen: nat)
    ensures Heard(wire + [item], gen) ==
            Heard(wire, gen) + if item.WFiller? && item.gen == gen then item.frame else []
    ensures Goodbyes(wire + [item]) == Goodbyes(wire) + if item.WFarewell? then item.frame else []
  {
    assert (wire + [item])[..|wire|] == wire;
  }

  /** A frame is the next stretch of the loop, and the machine's offset is where it ends. */
  ghost predicate EpisodeFits(a: Audio, c: Call, e: Episode)
    requires |a.loop| > 0
  {
    && e.sent == Heard(c.wire, e.gen)
    && e.sent == Loop(a.loop, 0, |e.sent|)
    && (e.stage == Waiting || e.stage == Skipped ==> e.sent == [])
    && ((e.stage == AtTick || e.stage == WantsSlot) && e.gen == c.f.gen ==> c.f.off == |e.sent| % |a.loop|)
    && (e.stage.Writing? ==>
          && e.stage.frame == Loop(a.loop, |e.sent|, FRAME_BYTES)
          && (e.gen == c.f.gen ==> c.f.off == (|e.sent| + FRAME_BYTES) % |a.loop|))
  }

  ghost predicate EpisodesFit(a: Audio, c: Call)
    requires |a.loop| > 0
  {
    && (forall k :: 0 <= k < |c.eps| ==> EpisodeFits(a, c, c.eps[k]))
    && (forall g :: g > c.f.gen ==> Heard(c.wire, g) == [])
  }

  ghost predicate GoodbyeFits(a: Audio, c: Call) {
    match c.fare
    case FClip(at) => at <= |a.farewell| && Goodbyes(c.wire) == a.farewell[..at]
    case FFrame(at) => at < |a.farewell| && Goodbyes(c.wire) == a.farewell[..at]
    case FDone => Goodbyes(c.wire) <= a.farewell
    case _ => Goodbyes(c.wire) == []
  }

  /** Steps that neither write, nor admit a frame, nor begin an episode. */
  lemma SilentFits(a: Audio, c: Call, n: Call)
    requires |a.loop| > 0 && EpisodesFit(a, c)
    requires n.wire == c.wire && n.f.gen >= c.f.gen && (n.f.gen == c.f.gen ==> n.f.off == c.f.off)
    requires |n.eps| == |c.eps|
    requires forall k :: 0 <= k < |n.eps| ==>
               && n.eps[k].gen == c.eps[k].gen && n.eps[k].sent == c.eps[k].sent
               && (n.eps[k].stage == c.eps[k].stage || n.eps[k].stage == Leaving || n.eps[k].stage == Exited
                   || (n.eps[k].stage == Skipped && c.eps[k].stage == Waiting)
                   || (n.eps[k].stage == WantsSlot && c.eps[k].stage == AtTick))
    requires forall k :: 0 <= k < |n.eps| && n.f.gen > c.f.gen ==> n.eps[k].gen < n.f.gen
    ensures EpisodesFit(a, n)
  {
    hide Heard;
    forall k | 0 <= k < |n.eps|
      ensures EpisodeFits(a, n, n.eps[k])
    {
      assert EpisodeFits(a, c, c.eps[k]);
    }
  }

  lemma ArmFits(a: Audio, c: Call)
    requires |a.loop| > 0 && EpisodesFit(a, c) && Ordered(c)
    ensures EpisodesFit(a, DoDrainArm(a, c))
  {
    hide Heard;
    var n := DoDrainArm(a, c);
    assert Loop(a.loop, 0, 0) == [];
    forall k | 0 <= k < |n.eps|
      ensures EpisodeFits(a, n, n.eps[k])
    {
      if k < |c.eps| {
        assert EpisodeFits(a, c, c.eps[k]);
      }
    }
  }

  lemma TimerFits(a: Audio, c: Call, k: nat)
    requires |a.loop| > 0 && EpisodesFit(a, c) && Ordered(c) && k < |c.eps| && c.eps[k].stage == Waiting
    ensures EpisodesFit(a, DoRunTimer(c, k))
  {
    hide Heard, Loop;
    var n := DoRunTimer(c, k);
    ModUnique(0, 0, 0, |a.loop|);
    forall j | 0 <= j < |n.eps|
      ensures EpisodeFits(a, n, n.eps[j])
    {
      assert EpisodeFits(a, c, c.eps[j]);
      assert j != k ==> c.eps[j].gen != c.eps[k].gen;
    }
  }

  lemma AskFits(a: Audio, c: Call, k: nat)
    requires |a.loop| > 0 && EpisodesFit(a, c) && Ordered(c) && k < |c.eps| && c.eps[k].stage == WantsSlot
    ensures EpisodesFit(a, DoPlayAsk(a, c, k))
  {
    hide Heard;
    var n := DoPlayAsk(a, c, k);
    var e := c.eps[k];
    assert EpisodeFits(a, c, e);
    LoopReduced(a.loop, |e.sent|, FRAME_BYTES);
    ModShift(|e.sent|, FRAME_BYTES, |a.loop|);
    hide Loop;
    forall j | 0 <= j < |n.eps|
      ensures EpisodeFits(a, n, n.eps[j])
    {
      assert EpisodeFits(a, c, c.eps[j]);
      assert j != k ==> c.eps[j].gen != c.eps[k].gen;
    }
  }

  lemma WrittenFits(a: Audio, c: Call, k: nat)
    requires |a.loop| > 0 && EpisodesFit(a, c) && Ordered(c) && k < |c.eps| && c.eps[k].stage.Writing?
    ensures EpisodesFit(a, DoPlayWritten(c, k))
  {
    var n := DoPlayWritten(c, k);
    var e := c.eps[k];
    assert EpisodeFits(a, c, e);
    LoopAppend(a.loop, 0, |e.sent|, FRAME_BYTES);
    hide Loop, Heard;
    forall j | 0 <= j < |n.eps|
      ensures EpisodeFits(a, n, n.eps[j])
    {
      assert EpisodeFits(a, c, c.eps[j]);
      HeardMore(c.wire, WFiller(e.gen, e.stage.frame), c.eps[j].gen);
      assert j != k ==> c.eps[j].gen != c.eps[k].gen;
    }
    forall g | g > n.f.gen
      ensures Heard(n.wire, g) == []
    {
      HeardMore(c.wire, WFiller(e.gen, e.stage.frame), g);
    }
  }

  lemma OtherWriteFits(a: Audio, c: Call, n: Call, item: Item)
    requires |a.loop| > 0 && EpisodesFit(a, c) && !item.WFiller?
    requires n.f == c.f && n.eps == c.eps && n.wire == c.wire + [item]
    ensures EpisodesFit(a, n)
  {
    hide Loop, Heard;
    forall j | 0 <= j < |n.eps|
      ensures EpisodeFits(a, n, n.eps[j])
    {
      assert EpisodeFits(a, c, c.eps[j]);
      HeardMore(c.wire, item, c.eps[j].gen);
    }
    forall g | g > n.f.gen
      ensures Heard(n.wire, g) == []
    {
      HeardMore(c.wire, item, g);
    }
  }

  lemma BridgeFits(a: Audio, c: Call)
    requires |a.loop| > 0 && EpisodesFit(a, c) && Ordered(c) && ClearsBehind(c)
    ensures EpisodesFit(a, DoBridge(c))
  {
    hide EpisodesFit;
    if c.bridge.BWriting? {
      OtherWriteFits(a, c, DoBridge(c), c.bridge.item);
    } else {
      SilentFits(a, c, DoBridge(c));
    }
  }

  lemma FareFits(a: Audio, c: Call)
    requires |a.loop| > 0 && EpisodesFit(a, c) && Ordered(c) && GoodbyeFits(a, c)
    ensures EpisodesFit(a, DoFare(a, c))
  {
    hide EpisodesFit;
    match c.fare
    case FClearing(tag) => OtherWriteFits(a, c, DoFare(a, c), WClear(tag));
    case FFrame(at) =>
      OtherWriteFits(a, c, DoFare(a, c), WFarewell(a.farewell[at..Min(at + FRAME_BYTES, |a.farewell|)]));
    case _ => SilentFits(a, c, DoFare(a, c));
  }

  lemma FitsKept(a: Audio, c: Call, step: Step)
    requires |a.loop| > 0 && Enabled(a, c, step)
    requires EpisodesFit(a, c) && Ordered(c) && ClearsBehind(c) && GoodbyeFits(a, c)
    ensures EpisodesFit(a, Next(a, c, step))
  {
    hide EpisodesFit, DoBridge, DoFare, GoodbyeFits, ClearsBehind;
    var n := Next(a, c, step);
    match step
    case DrainArm => ArmFits(a, c);
    case RunTimer(k) => TimerFits(a, c, k);
    case PlayAsk(k) => AskFits(a, c, k);
    case PlayWritten(k) => WrittenFits(a, c, k);
    case BridgeStep => BridgeFits(a, c);
    case FareStep => FareFits(a, c);
    case _ => SilentFits(a, c, n);
  }

  lemma SameGoodbye(a: Audio, c: Call, n: Call, item: Item)
    requires GoodbyeFits(a, c) && n.fare == c.fare
    requires n.wire == c.wire || (n.wire == c.wire + [item] && !item.WFarewell?)
    ensures GoodbyeFits(a, n)
  {
    HeardMore(c.wire, item, 0);
    hide Goodbyes;
    assert Goodbyes(n.wire) == Goodbyes(c.wire);
  }

  lemma GoodbyeKept(a: Audio, c: Call, step: Step)
    requires |a.loop| > 0 && Enabled(a, c, step) && GoodbyeFits(a, c) && FarewellAlone(c)
    ensures GoodbyeFits(a, Next(a, c, step))
  {
    var n := Next(a, c, step);
    match step
    case PlayWritten(k) =>
      hide GoodbyeFits;
      SameGoodbye(a, c, n, WFiller(c.eps[k].gen, c.eps[k].stage.frame));
    case BridgeStep =>
      hide GoodbyeFits;
      SameGoodbye(a, c, n, if c.bridge.BWriting? then c.bridge.item else WReply(None));
    case FareStart =>
    case FareStep => GoodbyeStep(a, c);
    case FareFails =>
    case _ =>
      hide GoodbyeFits;
      SameGoodbye(a, c, n, WReply(None));
  }

  lemma GoodbyeStep(a: Audio, c: Call)
    requires GoodbyeFits(a, c)
    ensures GoodbyeFits(a, DoFare(a, c))
  {
    hide Goodbyes;
    match c.fare
    case FClearing(tag) => HeardMore(c.wire, WClear(tag), 0);
    case FFrame(at) =>
      var end := Min(at + FRAME_BYTES, |a.farewell|);
      HeardMore(c.wire, WFarewell(a.farewell[at..end]), 0);
      assert a.farewell[..at] + a.farewell[at..end] == a.farewell[..end];
    case _ =>
  }

  // ---- whole calls -------------------------------------------------------------------------------

  ghost predicate Inv(a: Audio, c: Call)
    requires |a.loop| > 0
  {
    Generations(c) && Clears(c) && Farewells(c) && Paid(c) && EpisodesFit(a, c) && GoodbyeFits(a, c)
  }

  lemma OpenedInv(a: Audio)
    requires |a.loop| > 0
    ensures Inv(a, Opened())
  {
  }

  lemma InvKept(a: Audio, c: Call, step: Step)
    requires |a.loop| > 0 && Enabled(a, c, step) && Inv(a, c)
    ensures Inv(a, Next(a, c, step))
  {
    GenerationsKept(a, c, step);
    SlotKept(a, c, step);
    ClearsKept(a, c, step);
    FarewellsKept(a, c, step);
    PaidKept(a, c, step);
    FitsKept(a, c, step);
    GoodbyeKept(a, c, step);
    hide Next, Enabled, Ordered, TimerLive, PlayingOwned, SlotHeld, NothingAfterClear, ClearsBehind,
      FarewellLast, FarewellAlone, Paid, EpisodesFit, GoodbyeFits;
  }

  lemma {:induction false} InvThroughout(a: Audio, c: Call, steps: seq<Step>)
    requires |a.loop| > 0 && Legal(a, c, steps) && Inv(a, c)
    ensures Inv(a, After(a, c, steps))
    decreases |steps|
  {
    hide Enabled, Next, Inv;
    if steps != [] {
      InvKept(a, c, steps[0]);
      InvThroughout(a, Next(a, c, steps[0]), steps[1..]);
    }
  }

  /** An unexited play goroutine carries the live generation. */
  ghost predicate OwnsLoop(c: Call, k: nat) {
    k < |c.eps| && Live(c.eps[k].stage) && c.eps[k].gen == c.f.gen
  }

  /**
   Playing holds exactly when an unexited play goroutine carries the live generation, and
   then just one does.
   */
  lemma PlayingExactly(a: Audio, steps: seq<Step>)
    requires |a.loop| > 0 && Legal(a, Opened(), steps)
    ensures var c := After(a, Opened(), steps);
            && (c.f.playing <==> exists k :: OwnsLoop(c, k))
            && (forall j, k :: OwnsLoop(c, j) && OwnsLoop(c, k) ==> j == k)
  {
    OpenedInv(a);
    InvThroughout(a, Opened(), steps);
    hide Clears, Farewells, Paid, EpisodesFit, GoodbyeFits;
    var c := After(a, Opened(), steps);
    if c.f.playing {
      assert OwnsLoop(c, |c.eps| - 1);
    }
  }

  /** A pending timer is never stale and never coexists with playing: run when due, it begins the loop. */
  lemma PendingIsLive(a: Audio, steps: seq<Step>)
    requires |a.loop| > 0 && Legal(a, Opened(), steps) && After(a, Opened(), steps).f.timer.Some?
    ensures var c := After(a, Opened(), steps);
            && !c.f.playing && c.eps != []
            && (c.now >= c.f.timer.value.due ==>
                  var k := |c.eps| - 1;
                  && Enabled(a, c, RunTimer(k))
                  && Next(a, c, RunTimer(k)).f.playing && Next(a, c, RunTimer(k)).f.off == 0)
  {
    OpenedInv(a);
    InvThroughout(a, Opened(), steps);
    hide Clears, Farewells, Paid, EpisodesFit, GoodbyeFits, Ordered;
  }

  /** A step that stops the machine for good or for now, or runs the pending start itself. */
  predicate EndsWait(c: Call, step: Step) {
    match step
    case DrainStop => true
    case BridgeStep => c.bridge == BMediaStop || c.bridge.BClearStop?
    case FareStart => true
    case FareStep => c.fare == FClearStop || c.fare == FShutdown
    case EndOfCall => true
    case RunTimer(k) => k + 1 == |c.eps|
    case _ => false
  }

  /** A run in which nothing ends the wait: arms, frames, other starts' late functions, time. */
  ghost predicate WaitGoesOn(a: Audio, c: Call, steps: seq<Step>)
    requires |a.loop| > 0 && Legal(a, c, steps)
    decreases |steps|
  {
    steps == [] || (!EndsWait(c, steps[0]) && WaitGoesOn(a, Next(a, c, steps[0]), steps[1..]))
  }

  lemma WaitStep(a: Audio, c: Call, step: Step)
    requires |a.loop| > 0 && Enabled(a, c, step) && Generations(c)
    requires c.f.timer.Some? && !EndsWait(c, step)
    ensures Next(a, c, step).f.timer == c.f.timer
  {
    hide SetStage, Frame;
  }

  /**
   Re-arming never moves a pending deadline: until the machine is stopped or the pending
   start runs, the very same countdown stays pending, however often the wait is re-armed.
   */
  lemma DeadlineNeverMoves(a: Audio, before: seq<Step>, steps: seq<Step>)
    requires |a.loop| > 0 && Legal(a, Opened(), before)
    requires var c := After(a, Opened(), before);
             c.f.timer.Some? && Legal(a, c, steps) && WaitGoesOn(a, c, steps)
    ensures var c := After(a, Opened(), before);
            After(a, c, steps).f.timer == c.f.timer
  {
    OpenedInv(a);
    InvThroughout(a, Opened(), before);
    hide Clears, Farewells, Paid, EpisodesFit, GoodbyeFits, Ordered, TimerLive, PlayingOwned;
    WaitKept(a, After(a, Opened(), before), steps);
  }

  lemma {:induction false} WaitKept(a: Audio, c: Call, steps: seq<Step>)
    requires |a.loop| > 0 && Legal(a, c, steps) && Generations(c) && c.f.timer.Some?
    requires WaitGoesOn(a, c, steps)
    ensures After(a, c, steps).f.timer == c.f.timer
    decreases |steps|
  {
    hide Enabled, Next, Ordered, TimerLive, PlayingOwned, EndsWait;
    if steps != [] {
      assert !EndsWait(c, steps[0]) && WaitGoesOn(a, Next(a, c, steps[0]), steps[1..]);
      GenerationsKept(a, c, steps[0]);
      WaitStep(a, c, steps[0]);
      WaitKept(a, Next(a, c, steps[0]), steps[1..]);
    }
  }

  /** No frame of a stopped generation follows the clear sent for that stop. */
  lemma NoFrameAfterItsClear(a: Audio, steps: seq<Step>, i: nat, j: nat)
    requires |a.loop| > 0 && Legal(a, Opened(), steps)
    requires i < j < |After(a, Opened(), steps).wire|
    requires After(a, Opened(), steps).wire[i].WClear? && After(a, Opened(), steps).wire[j].WFiller?
    ensures After(a, Opened(), steps).wire[j].gen > After(a, Opened(), steps).wire[i].tag
  {
    OpenedInv(a);
    InvThroughout(a, Opened(), steps);
  }

  /**
   A reply frame whose Media call ended a playing loop is preceded on the wire by a clear of
   that loop, and every farewell frame by a clear of whatever was live when it began.
   */
  lemma OwedClearsAreSent(a: Audio, steps: seq<Step>)
    requires |a.loop| > 0 && Legal(a, Opened(), steps)
    ensures var c := After(a, Opened(), steps);
            RepliesCleared(c.wire) && FarewellCleared(c.wire, c.begun)
  {
    OpenedInv(a);
    InvThroughout(a, Opened(), steps);
    hide Generations, Clears, Farewells, EpisodesFit;
  }

  /**
   Once a frame of the farewell is on the wire nothing but the farewell follows it, and what
   is on the wire of it is a prefix of the clip.
   */
  lemma FarewellOwnsWire(a: Audio, steps: seq<Step>)
    requires |a.loop| > 0 && Legal(a, Opened(), steps)
    ensures FarewellLast(After(a, Opened(), steps).wire)
    ensures Goodbyes(After(a, Opened(), steps).wire) <= a.farewell
  {
    OpenedInv(a);
    InvThroughout(a, Opened(), steps);
    hide Generations, Clears, Paid, EpisodesFit;
  }

  /** Every episode plays a prefix of the clip repeated for ever, from its start. */
  lemma EpisodeIsLoopPrefix(a: Audio, steps: seq<Step>, k: nat)
    requires |a.loop| > 0 && Legal(a, Opened(), steps) && k < |After(a, Opened(), steps).eps|
    ensures var c := After(a, Opened(), steps);
            var heard := Heard(c.wire, c.eps[k].gen);
            heard == Loop(a.loop, 0, |heard|)
  {
    OpenedInv(a);
    InvThroughout(a, Opened(), steps);
    var c := After(a, Opened(), steps);
    assert EpisodeFits(a, c, c.eps[k]);
  }
}
