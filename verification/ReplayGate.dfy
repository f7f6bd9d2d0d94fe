/**
 The replay harness's token gate in front of the voice pipeline: producer, sequencer,
 forwarder, VAD goroutine and event relay, one atomic step each, in any order.
 */
module ReplayGate {
  import opened Common
  import opened Telephony
  import CyclicClip

  const LOOKAHEAD := 4
  const DATA_IN_DEPTH := 16
  const READ_BYTES := 256

  type Frame = seq<Byte>

  /** A channel that holds one item is a sequence of at most one. */
  datatype Pipe = Pipe(
    hand: seq<Frame>,        // acquired for, not yet sent
    dataIn: seq<Frame>,
    forwardCh: seq<Frame>,
    relay: seq<Frame>,       // held by the forwarder in its blocking send
    vadIn: seq<Frame>)

  /** The VAD goroutine and the relay of its events. */
  datatype Voice = Voice(
    rem: nat,                // samples left in the windower
    todo: nat,               // windows cut and not yet stepped
    raw: nat, heldEvent: bool, out: nat)

  datatype Gate = Gate(
    tokens: nat, pipe: Pipe, voice: Voice,
    acquired: nat, released: nat, cut: nat, dropped: nat,
    fed: seq<Byte>, seen: seq<Byte>)

  function Opened(): Gate {
    Gate(LOOKAHEAD, Pipe([], [], [], [], []), Voice(0, 0, 0, false, 0), 0, 0, 0, 0, [], [])
  }

  datatype Step =
    | Acquire(frame: Frame)
    | Send
    | Sequence               // handleDataFrame: the one send that drops when full
    | Forward
    | Relay
    | Receive
    | StepWindow(event: bool)
    | TakeEvent
    | DeliverEvent
    | DispatchEvent

  predicate Enabled(g: Gate, step: Step) {
    match step
    case Acquire(frame) => g.pipe.hand == [] && g.tokens > 0 && 0 < |frame| <= READ_BYTES
    case Send => g.pipe.hand != [] && |g.pipe.dataIn| < DATA_IN_DEPTH
    case Sequence => g.pipe.dataIn != []
    case Forward => g.pipe.forwardCh != [] && g.pipe.relay == []
    case Relay => g.pipe.relay != [] && |g.pipe.vadIn| < PLANE_DEPTH
    case Receive => g.pipe.vadIn != [] && g.voice.todo == 0
    case StepWindow(event) => g.voice.todo > 0 && (event ==> g.voice.raw < PLANE_DEPTH)
    case TakeEvent => g.voice.raw > 0 && !g.voice.heldEvent
    case DeliverEvent => g.voice.heldEvent && g.voice.out < PLANE_DEPTH
    case DispatchEvent => g.voice.out > 0
  }

  /** A token comes back, unless the gate is already full of them. */
  function Release(g: Gate): Gate {
    g.(tokens := if g.tokens < LOOKAHEAD then g.tokens + 1 else g.tokens, released := g.released + 1)
  }

  function Next(w: nat, g: Gate, step: Step): Gate
    requires w > 0 && Enabled(g, step)
  {
    var p, v := g.pipe, g.voice;
    match step
    case Acquire(frame) =>
      g.(tokens := g.tokens - 1, acquired := g.acquired + 1, fed := g.fed + frame, pipe := p.(hand := [frame]))
    case Send => g.(pipe := p.(hand := p.hand[1..], dataIn := p.dataIn + [p.hand[0]]))
    case Sequence =>
      if |p.forwardCh| < PLANE_DEPTH
      then g.(pipe := p.(dataIn := p.dataIn[1..], forwardCh := p.forwardCh + [p.dataIn[0]]))
      else g.(pipe := p.(dataIn := p.dataIn[1..]), dropped := g.dropped + 1)
    case Forward => g.(pipe := p.(forwardCh := p.forwardCh[1..], relay := [p.forwardCh[0]]))
    case Relay => g.(pipe := p.(relay := p.relay[1..], vadIn := p.vadIn + [p.relay[0]]))
    case Receive =>
      var samples := v.rem + |p.vadIn[0]|;
      g.(pipe := p.(vadIn := p.vadIn[1..]), seen := g.seen + p.vadIn[0], cut := g.cut + samples / w,
         voice := v.(rem := samples % w, todo := samples / w))
    case StepWindow(event) =>
      var n := g.(voice := v.(todo := v.todo - 1, raw := if event then v.raw + 1 else v.raw));
      if event then n else Release(n)
    case TakeEvent => g.(voice := v.(raw := v.raw - 1, heldEvent := true))
    case DeliverEvent => Release(g.(voice := v.(heldEvent := false, out := v.out + 1)))
    case DispatchEvent => g.(voice := v.(out := v.out - 1))
  }

  ghost predicate Legal(w: nat, g: Gate, steps: seq<Step>)
    requires w > 0
    decreases |steps|
  {
    steps == [] || (Enabled(g, steps[0]) && Legal(w, Next(w, g, steps[0]), steps[1..]))
  }

  ghost function After(w: nat, g: Gate, steps: seq<Step>): Gate
    requires w > 0 && Legal(w, g, steps)
    decreases |steps|
  {
    if steps == [] then g else After(w, Next(w, g, steps[0]), steps[1..])
  }

  // ---- safety --------------------------------------------------------------------------------

  /** Every frame between the gate and the VAD, oldest first. */
  function InFlight(p: Pipe): seq<Frame> { p.vadIn + p.relay + p.forwardCh + p.dataIn + p.hand }

  /** Windows cut and not yet settled. */
  function Unsettled(v: Voice): nat { v.todo + v.raw + if v.heldEvent then 1 else 0 }

  ghost predicate FramesSized(fs: seq<Frame>) { forall f :: f in fs ==> 0 < |f| <= READ_BYTES }

  ghost predicate Counted(w: nat, g: Gate) {
    && g.cut * w + g.voice.rem == |g.seen|
    && g.voice.rem < w
    && g.cut == g.released + Unsettled(g.voice)
  }

  /** Windows never outrun frames, which is where the window size matters. */
  ghost predicate Bounded(w: nat, g: Gate) {
    var received := g.acquired - |InFlight(g.pipe)|;
    && 0 <= received
    && |g.seen| <= received * READ_BYTES
    && g.cut <= received
    && g.tokens + g.acquired == LOOKAHEAD + g.released
  }

  ghost predicate Intact(g: Gate) {
    && g.dropped == 0
    && FramesSized(InFlight(g.pipe))
    && g.fed == g.seen + Flatten(InFlight(g.pipe))
  }

  ghost predicate Inv(w: nat, g: Gate) { Counted(w, g) && Bounded(w, g) && Intact(g) }

  /** Four tokens cover every frame in flight and every unsettled window. */
  lemma TokensCover(w: nat, g: Gate)
    requires w > 0 && Counted(w, g) && Bounded(w, g)
    ensures |InFlight(g.pipe)| + Unsettled(g.voice) <= LOOKAHEAD - g.tokens
    ensures g.released <= g.acquired <= g.released + LOOKAHEAD
  {
  }

  lemma CountsKept(w: nat, g: Gate, step: Step)
    requires w > 0 && Enabled(g, step) && Counted(w, g)
    ensures Counted(w, Next(w, g, step))
  {
    if step.Receive? {
      CutMore(w, g.cut, g.voice.rem, |g.pipe.vadIn[0]|);
    }
  }

  lemma CutMore(w: nat, cut: nat, rem: nat, n: nat)
    requires w > 0
    ensures (cut + (rem + n) / w) * w + (rem + n) % w == cut * w + rem + n
    ensures (rem + n) % w < w
  {
    var q := (rem + n) / w;
    assert rem + n == w * q + (rem + n) % w;
    assert (cut + q) * w == cut * w + q * w;
  }

  lemma BoundKept(w: nat, g: Gate, step: Step)
    requires w >= READ_BYTES && Enabled(g, step) && Inv(w, g)
    ensures Bounded(w, Next(w, g, step))
  {
    hide InFlight, Unsettled, FramesSized;
    CountsKept(w, g, step);
    TokensCover(w, g);
    RoomToForward(w, g, step);
    FlightAfter(w, g, step);
    if step.Receive? {
      var n := Next(w, g, step);
      FirstSized(InFlight(g.pipe));
      CutWithin(n.cut, w, |n.seen|, n.acquired - |InFlight(n.pipe)|);
    }
  }

  lemma FirstSized(f: seq<Frame>)
    requires FramesSized(f) && f != []
    ensures |f[0]| <= READ_BYTES
  {
  }

  lemma CutWithin(cut: nat, w: nat, bytes: nat, received: nat)
    requires w >= READ_BYTES && cut * w <= bytes <= received * READ_BYTES
    ensures cut <= received
  {
    assert received * w == received * READ_BYTES + received * (w - READ_BYTES);
    assert cut * w == (cut - received) * w + received * w;
    if cut > received {
      CyclicClip.MulAtLeast(cut - received, w);
    }
  }

  lemma Shift(to: seq<Frame>, from: seq<Frame>)
    requires from != []
    ensures (to + [from[0]]) + from[1..] == to + from
  {
    assert from == [from[0]] + from[1..];
  }

  lemma Behead(a: seq<Frame>, b: seq<Frame>)
    requires a != []
    ensures (a + b)[1..] == a[1..] + b
  {
  }

  lemma SendInOrder(p: Pipe)
    requires p.hand != []
    ensures InFlight(p.(hand := p.hand[1..], dataIn := p.dataIn + [p.hand[0]])) == InFlight(p)
  {
    var x := p.vadIn + p.relay + p.forwardCh;
    Joined(x, p.dataIn, [p.hand[0]]);
    Shift(x + p.dataIn, p.hand);
  }

  lemma SequenceInOrder(p: Pipe)
    requires p.dataIn != []
    ensures InFlight(p.(dataIn := p.dataIn[1..], forwardCh := p.forwardCh + [p.dataIn[0]])) == InFlight(p)
  {
    var x := p.vadIn + p.relay;
    Joined(x, p.forwardCh, [p.dataIn[0]]);
    Shift(x + p.forwardCh, p.dataIn);
  }

  lemma ForwardInOrder(p: Pipe)
    requires p.forwardCh != [] && p.relay == []
    ensures InFlight(p.(forwardCh := p.forwardCh[1..], relay := [p.forwardCh[0]])) == InFlight(p)
  {
    assert p.vadIn + p.relay == p.vadIn;
    Shift(p.vadIn, p.forwardCh);
  }

  lemma RelayInOrder(p: Pipe)
    requires p.relay != []
    ensures InFlight(p.(relay := p.relay[1..], vadIn := p.vadIn + [p.relay[0]])) == InFlight(p)
  {
    Shift(p.vadIn, p.relay);
  }

  lemma AcquireInOrder(p: Pipe, frame: Frame)
    requires p.hand == []
    ensures InFlight(p.(hand := [frame])) == InFlight(p) + [frame]
  {
    var x := p.vadIn + p.relay + p.forwardCh + p.dataIn;
    assert x + [] == x;
  }

  lemma ReceiveInOrder(p: Pipe)
    requires p.vadIn != []
    ensures InFlight(p) != [] && InFlight(p)[0] == p.vadIn[0]
    ensures InFlight(p.(vadIn := p.vadIn[1..])) == InFlight(p)[1..]
  {
    Behead(p.vadIn, p.relay);
    Behead(p.vadIn + p.relay, p.forwardCh);
    Behead(p.vadIn + p.relay + p.forwardCh, p.dataIn);
    Behead(p.vadIn + p.relay + p.forwardCh + p.dataIn, p.hand);
  }

  /** Steps inside the pipe pass frames along in order; only the two ends change the flight. */
  lemma FlightAfter(w: nat, g: Gate, step: Step)
    requires w > 0 && Enabled(g, step)
    requires step.Sequence? ==> |g.pipe.forwardCh| < PLANE_DEPTH
    ensures var f := InFlight(g.pipe);
            InFlight(Next(w, g, step).pipe) ==
            if step.Acquire? then f + [step.frame]
            else if step.Receive? && f != [] then f[1..]
            else f
    ensures step.Receive? ==> InFlight(g.pipe) != [] && InFlight(g.pipe)[0] == g.pipe.vadIn[0]
  {
    hide InFlight;
    var p := g.pipe;
    match step
    case Acquire(frame) => AcquireInOrder(p, frame);
    case Send => SendInOrder(p);
    case Sequence => SequenceInOrder(p);
    case Forward => ForwardInOrder(p);
    case Relay => RelayInOrder(p);
    case Receive => ReceiveInOrder(p);
    case _ =>
  }

  lemma IntactKept(w: nat, g: Gate, step: Step)
    requires w >= READ_BYTES && Enabled(g, step) && Inv(w, g)
    ensures Intact(Next(w, g, step))
  {
    hide InFlight, Flatten, Unsettled, Counted, Bounded;
    RoomToForward(w, g, step);
    FlightAfter(w, g, step);
    var f := InFlight(g.pipe);
    if step.Acquire? {
      FlattenAppend(f, step.frame);
      Joined(g.seen, Flatten(f), step.frame);
    } else if step.Receive? {
      assert f == [f[0]] + f[1..];
      FlattenHead(f[0], f[1..]);
      Joined(g.seen, f[0], Flatten(f[1..]));
    }
  }

  /** The forward buffer has a free slot at every push. */
  lemma RoomToForward(w: nat, g: Gate, step: Step)
    requires w > 0 && Enabled(g, step) && Inv(w, g)
    ensures step.Sequence? ==> |g.pipe.forwardCh| < PLANE_DEPTH
  {
    TokensCover(w, g);
    if step.Sequence? {
      assert |InFlight(g.pipe)| >= |g.pipe.forwardCh| + |g.pipe.dataIn|;
    }
  }

  lemma InvKept(w: nat, g: Gate, step: Step)
    requires w >= READ_BYTES && Enabled(g, step) && Inv(w, g)
    ensures Inv(w, Next(w, g, step))
  {
    CountsKept(w, g, step);
    BoundKept(w, g, step);
    IntactKept(w, g, step);
  }

  lemma {:induction false} InvThroughout(w: nat, g: Gate, steps: seq<Step>)
    requires w >= READ_BYTES && Legal(w, g, steps) && Inv(w, g)
    ensures Inv(w, After(w, g, steps))
    decreases |steps|
  {
    hide Inv, Next;
    if steps != [] {
      InvKept(w, g, steps[0]);
      InvThroughout(w, Next(w, g, steps[0]), steps[1..]);
    }
  }

  /** Whatever the window size, the gate never holds more than its four tokens. */
  lemma {:induction false} TokensNeverExceed(w: nat, g: Gate, steps: seq<Step>)
    requires w > 0 && Legal(w, g, steps) && g.tokens <= LOOKAHEAD
    ensures After(w, g, steps).tokens <= LOOKAHEAD
    decreases |steps|
  {
    if steps != [] {
      TokensNeverExceed(w, Next(w, g, steps[0]), steps[1..]);
    }
  }

  /** A settled window gives a token back exactly when the gate is not full of them, whether its event was raised or not. */
  lemma SettlingGivesBack(w: nat, g: Gate, step: Step)
    requires w > 0 && Enabled(g, step) && g.tokens <= LOOKAHEAD
    ensures var n := Next(w, g, step);
            var settled := Unsettled(g.voice) - Unsettled(n.voice) > 0 && !step.Receive?;
            && n.tokens == (if settled then Min(g.tokens + 1, LOOKAHEAD) else if step.Acquire? then g.tokens - 1 else g.tokens)
            && n.released == g.released + (if settled then 1 else 0)
  {
  }

  /**
   In every interleaving, with windows of at least a frame: nothing is dropped, the VAD has
   received exactly the bytes fed less those still on their way, and the tokens account for both.
   */
  lemma NothingDropped(w: nat, steps: seq<Step>)
    requires w >= READ_BYTES && Legal(w, Opened(), steps)
    ensures var g := After(w, Opened(), steps);
            && g.dropped == 0
            && g.fed == g.seen + Flatten(InFlight(g.pipe))
            && g.released <= g.acquired <= g.released + LOOKAHEAD
            && |InFlight(g.pipe)| + Unsettled(g.voice) <= LOOKAHEAD
            && (g.pipe.dataIn != [] ==> |g.pipe.forwardCh| < PLANE_DEPTH)
  {
    InvThroughout(w, Opened(), steps);
    var g := After(w, Opened(), steps);
    TokensCover(w, g);
    if Enabled(g, Sequence) {
      RoomToForward(w, g, Sequence);
    }
  }

  // ---- and only then -------------------------------------------------------------------------

  ghost predicate Reachable(w: nat, g: Gate)
    requires w > 0
  {
    exists steps :: Legal(w, Opened(), steps) && After(w, Opened(), steps) == g
  }

  lemma {:induction false} RunExtends(w: nat, g: Gate, steps: seq<Step>, step: Step)
    requires w > 0 && Legal(w, g, steps) && Enabled(After(w, g, steps), step)
    ensures Legal(w, g, steps + [step])
    ensures After(w, g, steps + [step]) == Next(w, After(w, g, steps), step)
    decreases |steps|
  {
    hide Enabled, Next;
    if steps == [] {
      assert [] + [step] == [step];
      assert Legal(w, Next(w, g, step), [step][1..]);
    } else {
      RunExtends(w, Next(w, g, steps[0]), steps[1..], step);
      assert (steps + [step])[1..] == steps[1..] + [step];
    }
  }

  lemma Extend(w: nat, g: Gate, step: Step)
    requires w > 0 && Reachable(w, g) && Enabled(g, step)
    ensures Reachable(w, Next(w, g, step))
  {
    hide Enabled, Next;
    var steps :| Legal(w, Opened(), steps) && After(w, Opened(), steps) == g;
    RunExtends(w, Opened(), steps, step);
  }

  /** One more frame acquired, sent and handed on by the sequencer. */
  function Pushed(g: Gate, frame: Frame): Gate {
    var g1 := g.(tokens := if g.tokens > 0 then g.tokens - 1 else 0, acquired := g.acquired + 1, fed := g.fed + frame);
    if |g.pipe.forwardCh| < PLANE_DEPTH
    then g1.(pipe := g.pipe.(forwardCh := g.pipe.forwardCh + [frame]))
    else g1.(dropped := g.dropped + 1)
  }

  lemma Push(w: nat, g: Gate, frame: Frame)
    requires w > 0 && Reachable(w, g) && 0 < |frame| <= READ_BYTES
    requires g.tokens > 0 && g.pipe.hand == [] && g.pipe.dataIn == []
    ensures Reachable(w, Pushed(g, frame))
  {
    hide Reachable;
    Extend(w, g, Acquire(frame));
    var g1 := Next(w, g, Acquire(frame));
    Extend(w, g1, Send);
    var g2 := Next(w, g1, Send);
    assert g1.pipe.hand[1..] == [] && g2.pipe.dataIn == [frame];
    Extend(w, g2, Sequence);
    assert g2.pipe.dataIn[1..] == [];
    assert Next(w, g2, Sequence) == Pushed(g, frame);
  }

  const NO_PIPE := Pipe([], [], [], [], [])

  /** One frame taken all the way into the windower of an empty pipeline. */
  function Swallowed(w: nat, g: Gate, frame: Frame): Gate
    requires w > 0
  {
    var samples := g.voice.rem + |frame|;
    Gate(if g.tokens > 0 then g.tokens - 1 else 0, NO_PIPE, Voice(samples % w, samples / w, 0, false, 0),
         g.acquired + 1, g.released, g.cut + samples / w, g.dropped, g.fed + frame, g.seen + frame)
  }

  ghost predicate Drained(g: Gate) {
    g.pipe == NO_PIPE && g.voice == Voice(g.voice.rem, 0, 0, false, 0)
  }

  lemma Swallow(w: nat, g: Gate, frame: Frame)
    requires w > 0 && Reachable(w, g) && Drained(g) && g.tokens > 0 && 0 < |frame| <= READ_BYTES
    ensures Reachable(w, Swallowed(w, g, frame))
  {
    hide Reachable;
    Push(w, g, frame);
    var g1 := Pushed(g, frame);
    assert g1.pipe.forwardCh == [frame];
    Extend(w, g1, Forward);
    var g2 := Next(w, g1, Forward);
    assert g1.pipe.forwardCh[1..] == [];
    Extend(w, g2, Relay);
    var g3 := Next(w, g2, Relay);
    assert g2.pipe.relay[1..] == [] && g3.pipe.vadIn == [frame];
    Extend(w, g3, Receive);
    assert g3.pipe.vadIn[1..] == [];
    assert Next(w, g3, Receive) == Swallowed(w, g, frame);
  }

  function FullFrame(): Frame { seq(READ_BYTES, i => 0x80) }

  /** With two windows owed at once, the gate lends more tokens than the buffer has slots. */
  lemma TwoWindowsOverflow(w: nat, g: Gate)
    requires w > 0 && Reachable(w, g) && g.pipe == NO_PIPE && g.tokens == 3 && g.voice.todo >= 2
    ensures exists d :: Reachable(w, d) && d.dropped > 0
  {
    hide Reachable;
    var f := FullFrame();
    Push(w, g, f);
    Push(w, Pushed(g, f), f);
    Push(w, Pushed(Pushed(g, f), f), f);
    var g3 := Pushed(Pushed(Pushed(g, f), f), f);
    Extend(w, g3, StepWindow(false));
    var g4 := Next(w, g3, StepWindow(false));
    Push(w, g4, f);
    var g5 := Pushed(g4, f);
    Extend(w, g5, StepWindow(false));
    var g6 := Next(w, g5, StepWindow(false));
    Push(w, g6, f);
    assert Pushed(g6, f).dropped == g.dropped + 1;
  }

  /** A window shorter than a frame leaves a growing surplus, until one frame completes two. */
  lemma {:induction false} SurplusOverflows(w: nat, g: Gate)
    requires 0 < w < READ_BYTES && Reachable(w, g) && Drained(g) && g.tokens == LOOKAHEAD && g.voice.rem < w
    ensures exists d :: Reachable(w, d) && d.dropped > 0
    decreases w - g.voice.rem
  {
    hide Reachable;
    var f := FullFrame();
    Swallow(w, g, f);
    var g1 := Swallowed(w, g, f);
    var samples := g.voice.rem + READ_BYTES;
    if samples >= 2 * w {
      QuotientOf(samples, w);
      TwoWindowsOverflow(w, g1);
    } else {
      CyclicClip.ModUnique(samples, 1, samples - w, w);
      Extend(w, g1, StepWindow(false));
      SurplusOverflows(w, Next(w, g1, StepWindow(false)));
    }
  }

  /** The exact condition: no interleaving drops a frame just when a window is at least a frame. */
  lemma DropFreeExactly(w: nat)
    requires w > 0
    ensures w >= READ_BYTES <==> forall g :: Reachable(w, g) ==> g.dropped == 0
  {
    if w >= READ_BYTES {
      forall g | Reachable(w, g)
        ensures g.dropped == 0
      {
        var steps :| Legal(w, Opened(), steps) && After(w, Opened(), steps) == g;
        NothingDropped(w, steps);
      }
    } else {
      assert Legal(w, Opened(), []) && After(w, Opened(), []) == Opened();
      SurplusOverflows(w, Opened());
    }
  }

  // ---- progress ------------------------------------------------------------------------------

  /** A quotient is at least two exactly from two divisors on. */
  lemma QuotientOf(samples: nat, w: nat)
    requires w > 0
    ensures samples / w >= 2 <==> samples >= 2 * w
  {
    var q := samples / w;
    assert samples == q * w + samples % w;
    if q >= 2 {
      CyclicClip.MulAtLeast(q - 1, w);
      assert q * w == (q - 1) * w + w;
    }
  }

  /** Work left in the pipeline; every step but an acquire does some of it. */
  function Load(g: Gate): nat {
    var p, v := g.pipe, g.voice;
    9 * |p.hand| + 8 * |p.dataIn| + 7 * |p.forwardCh| + 6 * |p.relay| + 5 * |p.vadIn|
    + 4 * v.todo + 3 * v.raw + (if v.heldEvent then 2 else 0) + v.out
  }

  lemma StepsUnload(w: nat, g: Gate, step: Step)
    requires w >= READ_BYTES && Inv(w, g) && Enabled(g, step) && !step.Acquire?
    ensures Load(Next(w, g, step)) < Load(g)
  {
    RoomToForward(w, g, step);
    if step.Receive? {
      ReceiveUnloads(w, g);
    } else {
      hide Inv;
      match step
      case Send =>
      case Sequence =>
      case Forward =>
      case Relay =>
      case StepWindow(event) =>
      case TakeEvent =>
      case DeliverEvent =>
      case DispatchEvent =>
    }
  }

  lemma OneWindowAtMost(w: nat, g: Gate)
    requires w >= READ_BYTES && Inv(w, g) && Enabled(g, Receive)
    ensures (g.voice.rem + |g.pipe.vadIn[0]|) / w <= 1
  {
    ReceiveInOrder(g.pipe);
    FirstSized(InFlight(g.pipe));
    hide InFlight, Unsettled, FramesSized, Bounded;
    QuotientOf(g.voice.rem + |g.pipe.vadIn[0]|, w);
  }

  lemma ReceiveUnloads(w: nat, g: Gate)
    requires w >= READ_BYTES && Inv(w, g) && Enabled(g, Receive)
    ensures Load(Next(w, g, Receive)) < Load(g)
  {
    OneWindowAtMost(w, g);
    hide Load, Inv, Bounded, Counted, Intact;
    FrameForWindow(g, Next(w, g, Receive));
  }

  lemma FrameForWindow(g: Gate, n: Gate)
    requires g.pipe.vadIn != [] && n.pipe == g.pipe.(vadIn := g.pipe.vadIn[1..])
    requires g.voice.todo == 0 && n.voice == g.voice.(rem := n.voice.rem, todo := n.voice.todo) && n.voice.todo <= 1
    ensures Load(n) < Load(g)
  {
  }

  /** Until it has drained, some step that needs no token can run. */
  lemma PipelineMoves(g: Gate)
    requires Load(g) > 0
    ensures exists step :: Enabled(g, step) && !step.Acquire?
  {
    var p, v := g.pipe, g.voice;
    if v.out > 0 {
      assert Enabled(g, DispatchEvent);
    } else if v.heldEvent {
      assert Enabled(g, DeliverEvent);
    } else if v.raw > 0 {
      assert Enabled(g, TakeEvent);
    } else if v.todo > 0 {
      assert Enabled(g, StepWindow(false));
    } else if p.vadIn != [] {
      assert Enabled(g, Receive);
    } else if p.relay != [] {
      assert Enabled(g, Relay);
    } else if p.forwardCh != [] {
      assert Enabled(g, Forward);
    } else if p.dataIn != [] {
      assert Enabled(g, Sequence);
    } else {
      assert Enabled(g, Send);
    }
  }

  /**
   Once drained, the producer can go on exactly when fewer than four frames' worth of reads
   are still short of a window; otherwise it waits for a token nobody will ever return.
   */
  lemma DrainedGateOpens(w: nat, steps: seq<Step>, frame: Frame)
    requires w >= READ_BYTES && Legal(w, Opened(), steps) && Load(After(w, Opened(), steps)) == 0
    requires 0 < |frame| <= READ_BYTES
    ensures var g := After(w, Opened(), steps);
            && g.seen == g.fed
            && (Enabled(g, Acquire(frame)) <==> g.acquired - |g.fed| / w < LOOKAHEAD)
            && (!Enabled(g, Acquire(frame)) ==> forall step :: !Enabled(g, step))
  {
    InvThroughout(w, Opened(), steps);
    var g := After(w, Opened(), steps);
    assert InFlight(g.pipe) == [];
    CyclicClip.ModUnique(|g.seen|, g.cut, g.voice.rem, w);
  }

  /** Whole-frame reads against whole-frame windows never close the gate for good. */
  lemma FullReadsKeepOpen(steps: seq<Step>, frame: Frame)
    requires Legal(READ_BYTES, Opened(), steps) && 0 < |frame| <= READ_BYTES
    requires var g := After(READ_BYTES, Opened(), steps);
             Load(g) == 0 && |g.fed| == g.acquired * READ_BYTES
    ensures Enabled(After(READ_BYTES, Opened(), steps), Acquire(frame))
  {
    DrainedGateOpens(READ_BYTES, steps, frame);
  }

  /** Four one-byte reads do, whatever the window size. */
  lemma ShortReadsWedge(w: nat)
    requires w >= READ_BYTES
    ensures exists g :: Reachable(w, g) && Load(g) == 0 && |g.fed| == 4 && forall step :: !Enabled(g, step)
  {
    var f: Frame := [0x80];
    assert Legal(w, Opened(), []) && After(w, Opened(), []) == Opened();
    hide Reachable;
    var g0 := Opened();
    Swallow(w, g0, f);
    var g1 := Swallowed(w, g0, f);
    Swallow(w, g1, f);
    var g2 := Swallowed(w, g1, f);
    Swallow(w, g2, f);
    var g3 := Swallowed(w, g2, f);
    Swallow(w, g3, f);
    var g4 := Swallowed(w, g3, f);
    assert Load(g4) == 0;
  }
}
