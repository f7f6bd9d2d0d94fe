/**
 The drop-oldest data plane: one producer's Send under a mutex, in three channel operations
 between which the consumer, who takes no mutex, may receive.
 */
module Demux {
  import opened Common

  type Frame = seq<Byte>

  datatype Drops = Drops(dropping: bool, count: nat, start: int, reported: nat)

  /** The channel: its buffer, and whether it is closed. */
  datatype Plane = Plane(depth: nat, ch: seq<Frame>, closed: bool, drops: Drops)

  function Fresh(depth: nat): Plane { Plane(depth, [], false, Drops(false, 0, 0, 0)) }

  function RecordDropped(d: Drops, now: int): Drops {
    if d.dropping then d.(count := d.count + 1) else d.(dropping := true, start := now, count := 1)
  }

  /** The stop line reports the episode's count, and the next episode starts from nothing. */
  function RecordNotDropping(d: Drops): Drops {
    if d.dropping then d.(dropping := false, count := 0, reported := d.reported + d.count) else d
  }

  predicate HasRoom(p: Plane) { |p.ch| < p.depth }

  function InsertFast(p: Plane, f: Frame): Plane {
    p.(ch := p.ch + [f], drops := RecordNotDropping(p.drops))
  }

  function Evict(p: Plane, now: int): Plane {
    if p.ch == [] then p else p.(ch := p.ch[1..], drops := RecordDropped(p.drops, now))
  }

  function Insert(p: Plane, f: Frame): Plane { p.(ch := p.ch + [f]) }

  function Receive(p: Plane): Plane
    requires p.ch != []
  {
    p.(ch := p.ch[1..])
  }

  datatype RecvError = PlaneClosed | WouldBlock

  class DropOldestPlane {
    const depth: nat
    var ch: seq<Frame>
    var closed: bool
    var dropping: bool
    var dropCount: nat
    var dropStart: int
    var reported: nat

    ghost function State(): Plane
      reads this
    {
      Plane(depth, ch, closed, Drops(dropping, dropCount, dropStart, reported))
    }

    constructor (n: nat)
      ensures State() == Fresh(n)
    {
      depth := n;
      ch, closed, dropping, dropCount, dropStart, reported := [], false, false, 0, 0, 0;
    }

    method DoRecordDropped(now: int)
      modifies this`dropping, this`dropCount, this`dropStart
      ensures State() == old(State()).(drops := RecordDropped(old(State()).drops, now))
    {
      if !dropping {
        dropping := true;
        dropStart := now;
        dropCount := 0;
      }
      dropCount := dropCount + 1;
    }

    method DoRecordNotDropping()
      modifies this`dropping, this`dropCount, this`reported
      ensures State() == old(State()).(drops := RecordNotDropping(old(State()).drops))
    {
      if !dropping { return; }
      reported := reported + dropCount;
      dropping := false;
      dropCount := 0;
    }

    /** The first select: the frame goes in when there is room. */
    method TryInsert(f: Frame) returns (done: bool)
      modifies this
      ensures done == HasRoom(old(State()))
      ensures State() == if done then InsertFast(old(State()), f) else old(State())
    {
      if |ch| >= depth { return false; }
      ch := ch + [f];
      DoRecordNotDropping();
      done := true;
    }

    /** The second select: the oldest frame comes out, when one is still there. */
    method TryEvict(now: int)
      modifies this
      ensures State() == Evict(old(State()), now)
    {
      if ch == [] { return; }
      ch := ch[1..];
      DoRecordDropped(now);
    }

    method TryRecv() returns (r: Result<Frame, RecvError>)
      modifies this`ch
      ensures old(ch) != [] ==> r == Ok(old(ch)[0]) && State() == Receive(old(State()))
      ensures old(ch) == [] ==> State() == old(State()) && r == Err(if closed then PlaneClosed else WouldBlock)
    {
      if ch != [] {
        var f := ch[0];
        ch := ch[1..];
        return Ok(f);
      }
      r := Err(if closed then PlaneClosed else WouldBlock);
    }

    /** A whole Send that no receive interrupts keeps the newest frames, as many as fit. */
    method Send(f: Frame, now: int)
      requires depth >= 1 && |ch| <= depth
      modifies this
      ensures |ch| <= depth && closed == old(closed)
      ensures closed ==> State() == old(State())
      ensures !closed ==> ch == if |old(ch)| < depth then old(ch) + [f] else old(ch)[1..] + [f]
      ensures !closed ==> dropCount == if |old(ch)| < depth then 0 else if old(dropping) then old(dropCount) + 1 else 1
      requires !dropping ==> dropCount == 0
    {
      if closed { return; }
      var done := TryInsert(f);
      if done { return; }
      TryEvict(now);
      ch := ch + [f];
    }

    method DoClose()
      modifies this`closed
      ensures State() == old(State()).(closed := true)
    {
      if closed { return; }
      closed := true;
    }
  }

  // ---- producer and consumer interleaved -----------------------------------------------------------

  /** What has happened to the buffer, in order. */
  datatype Event = Fast(f: Frame) | Slow(f: Frame) | Evicted(f: Frame) | Received(f: Frame)

  /** Where Send stands; it holds the mutex unless idle. */
  datatype Pc = Idle | Evicting(f: Frame) | Inserting(f: Frame)

  datatype World = World(p: Plane, pc: Pc, hist: seq<Event>, now: int)

  datatype Step = SendTry(f: Frame) | SendEvict | SendInsert | Recv | Close | Tick(d: nat)

  function Opened(depth: nat): World { World(Fresh(depth), Idle, [], 0) }

  predicate Enabled(w: World, step: Step) {
    match step
    case SendTry(f) => w.pc == Idle
    case SendEvict => w.pc.Evicting?
    case SendInsert => w.pc.Inserting? && HasRoom(w.p)
    case Recv => w.p.ch != []
    case Close => w.pc == Idle
    case Tick(d) => true
  }

  function Next(w: World, step: Step): World
    requires Enabled(w, step)
  {
    match step
    case SendTry(f) =>
      if w.p.closed then w
      else if HasRoom(w.p) then w.(p := InsertFast(w.p, f), hist := w.hist + [Fast(f)])
      else w.(pc := Evicting(f))
    case SendEvict =>
      var n := w.(p := Evict(w.p, w.now), pc := Inserting(w.pc.f));
      if w.p.ch == [] then n else n.(hist := w.hist + [Evicted(w.p.ch[0])])
    case SendInsert => w.(p := Insert(w.p, w.pc.f), pc := Idle, hist := w.hist + [Slow(w.pc.f)])
    case Recv => w.(p := Receive(w.p), hist := w.hist + [Received(w.p.ch[0])])
    case Close => w.(p := w.p.(closed := true))
    case Tick(d) => w.(now := w.now + d)
  }

  ghost predicate Legal(w: World, steps: seq<Step>)
    decreases |steps|
  {
    steps == [] || (Enabled(w, steps[0]) && Legal(Next(w, steps[0]), steps[1..]))
  }

  ghost function After(w: World, steps: seq<Step>): World
    requires Legal(w, steps)
    decreases |steps|
  {
    if steps == [] then w else After(Next(w, steps[0]), steps[1..])
  }

  /** The frames put in, in order. */
  function Sent(h: seq<Event>): seq<Frame> {
    if h == [] then []
    else
      var e := h[|h| - 1];
      Sent(h[..|h| - 1]) + if e.Fast? || e.Slow? then [e.f] else []
  }

  /** The frames taken out, received or evicted, in order. */
  function Taken(h: seq<Event>): seq<Frame> {
    if h == [] then []
    else
      var e := h[|h| - 1];
      Taken(h[..|h| - 1]) + if e.Evicted? || e.Received? then [e.f] else []
  }

  /** Evictions since a send last found room: the current drop episode. */
  function Episode(h: seq<Event>): nat {
    if h == [] then 0
    else
      match h[|h| - 1]
      case Fast(f) => 0
      case Evicted(f) => Episode(h[..|h| - 1]) + 1
      case _ => Episode(h[..|h| - 1])
  }

  function Evictions(h: seq<Event>): nat {
    if h == [] then 0 else Evictions(h[..|h| - 1]) + if h[|h| - 1].Evicted? then 1 else 0
  }

  lemma OneMore(h: seq<Event>, e: Event)
    ensures Sent(h + [e]) == Sent(h) + if e.Fast? || e.Slow? then [e.f] else []
    ensures Taken(h + [e]) == Taken(h) + if e.Evicted? || e.Received? then [e.f] else []
    ensures Episode(h + [e]) == if e.Fast? then 0 else Episode(h) + if e.Evicted? then 1 else 0
    ensures Evictions(h + [e]) == Evictions(h) + if e.Evicted? then 1 else 0
  {
    assert (h + [e])[..|h|] == h;
  }

  ghost predicate Conserved(w: World) { Taken(w.hist) + w.p.ch == Sent(w.hist) }

  ghost predicate Counted(w: World) {
    && w.p.drops.count == Episode(w.hist)
    && (w.p.drops.dropping <==> Episode(w.hist) > 0)
    && w.p.drops.reported + w.p.drops.count == Evictions(w.hist)
  }

  ghost predicate Roomy(w: World) {
    && |w.p.ch| <= w.p.depth
    && (w.pc.Inserting? && w.p.depth >= 1 ==> HasRoom(w.p))
    && (w.pc != Idle ==> !w.p.closed)
  }

  ghost predicate Inv(w: World) { Conserved(w) && Counted(w) && Roomy(w) }

  lemma InvKept(w: World, step: Step)
    requires Enabled(w, step) && Inv(w)
    ensures Inv(Next(w, step)) && Next(w, step).p.depth == w.p.depth
  {
    hide Sent, Taken, Episode, Evictions;
    var n := Next(w, step);
    if n.hist != w.hist {
      OneMore(w.hist, n.hist[|n.hist| - 1]);
    }
    match step
    case SendTry(f) => Joined(Taken(w.hist), w.p.ch, [f]);
    case SendEvict =>
      if w.p.ch != [] {
        assert w.p.ch == [w.p.ch[0]] + w.p.ch[1..];
        Joined(Taken(w.hist), [w.p.ch[0]], w.p.ch[1..]);
      }
    case SendInsert => Joined(Taken(w.hist), w.p.ch, [w.pc.f]);
    case Recv =>
      assert w.p.ch == [w.p.ch[0]] + w.p.ch[1..];
      Joined(Taken(w.hist), [w.p.ch[0]], w.p.ch[1..]);
    case _ =>
  }

  lemma {:induction false} InvThroughout(w: World, steps: seq<Step>)
    requires Legal(w, steps) && Inv(w)
    ensures Inv(After(w, steps)) && After(w, steps).p.depth == w.p.depth
    decreases |steps|
  {
    hide Enabled, Next, Inv;
    if steps != [] {
      InvKept(w, steps[0]);
      InvThroughout(Next(w, steps[0]), steps[1..]);
    }
  }

  /**
   In every interleaving: what was put in splits in order into what was taken out and what
   is buffered, the counter is the current episode's evictions, the stop lines account for
   every earlier one, and no send ever meets a closed channel.
   */
  lemma PlaneAccounts(depth: nat, steps: seq<Step>)
    requires Legal(Opened(depth), steps)
    ensures var w := After(Opened(depth), steps);
            && Taken(w.hist) + w.p.ch == Sent(w.hist)
            && |w.p.ch| <= depth
            && w.p.drops.count == Episode(w.hist)
            && (w.p.drops.dropping <==> Episode(w.hist) > 0)
            && w.p.drops.reported + w.p.drops.count == Evictions(w.hist)
            && (w.pc != Idle ==> !w.p.closed)
  {
    InvThroughout(Opened(depth), steps);
  }

  /** A run that leaves a Send stopped at its second insert, with no room for it. */
  ghost predicate BlocksInsert(depth: nat, steps: seq<Step>) {
    Legal(Opened(depth), steps) &&
    var w := After(Opened(depth), steps);
    w.pc.Inserting? && !HasRoom(w.p)
  }

  /** The second insert never blocks, in any interleaving, exactly when the depth is at least one. */
  lemma InsertNeverBlocksExactly(depth: nat)
    ensures depth >= 1 <==> forall steps :: !BlocksInsert(depth, steps)
  {
    if depth >= 1 {
      forall steps
        ensures !BlocksInsert(depth, steps)
      {
        if Legal(Opened(depth), steps) {
          InvThroughout(Opened(depth), steps);
        }
      }
    } else {
      var w0 := Opened(depth);
      var w1 := Next(w0, SendTry([]));
      var w2 := Next(w1, SendEvict);
      var steps := [SendTry([]), SendEvict];
      assert steps[1..] == [SendEvict] && steps[1..][1..] == [];
      assert Legal(w2, []) && Legal(w1, steps[1..]) && Legal(w0, steps);
      assert After(w2, []) == w2 && After(w1, steps[1..]) == w2 && After(w0, steps) == w2;
      assert BlocksInsert(depth, steps);
    }
  }

  /**
   After Close nothing is evicted or added: whatever is taken from then on is the buffer as
   Close left it, in order, and the closed report waits until all of it has been taken.
   */
  lemma {:induction false} ClosedPlaneDrains(w: World, steps: seq<Step>)
    requires Legal(w, steps) && w.p.closed && w.pc == Idle
    ensures var n := After(w, steps);
            && n.p.closed && n.pc == Idle
            && |n.hist| >= |w.hist| && n.hist[..|w.hist|] == w.hist
            && Taken(n.hist) + n.p.ch == Taken(w.hist) + w.p.ch
            && Evictions(n.hist) == Evictions(w.hist) && Sent(n.hist) == Sent(w.hist)
            && (n.p.ch == [] ==> Taken(n.hist) == Taken(w.hist) + w.p.ch)
    decreases |steps|
  {
    hide Sent, Taken, Evictions, Episode;
    if steps != [] {
      var m := Next(w, steps[0]);
      if steps[0].Recv? {
        OneMore(w.hist, Received(w.p.ch[0]));
        assert w.p.ch == [w.p.ch[0]] + w.p.ch[1..];
        Joined(Taken(w.hist), [w.p.ch[0]], w.p.ch[1..]);
      }
      ClosedPlaneDrains(m, steps[1..]);
      assert m.hist[..|w.hist|] == w.hist;
    }
  }
}
