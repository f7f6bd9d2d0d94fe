/**
 From frames to voice events: the windower that re-chunks decoded samples, the loop that runs
 the detector and the machine on every whole window, and why framing cannot matter.
 */
module VadStream {
  import opened Common
  import opened MuLaw
  import opened Vad
  import opened CyclicClip

  type Window = seq<real>

  /** The detector's probability for the last of the windows heard so far. */
  type Detector = seq<Window> -> real

  // ---- the windower --------------------------------------------------------------------------

  function Windows<T>(size: nat, s: seq<T>): seq<seq<T>>
    requires size > 0
  {
    if |s| < size then [] else [s[..size]] + Windows(size, s[size..])
  }

  function Remainder<T>(size: nat, s: seq<T>): seq<T>
    requires size > 0
  {
    if |s| < size then s else Remainder(size, s[size..])
  }

  lemma WindowsStep<T>(size: nat, s: seq<T>)
    requires 0 < size <= |s|
    ensures Windows(size, s) == [s[..size]] + Windows(size, s[size..])
    ensures Remainder(size, s) == Remainder(size, s[size..])
    ensures s == s[..size] + s[size..]
  {
  }

  /** Windows of exactly the asked size, then a shorter remainder, are the samples in order. */
  lemma {:induction false} WindowsCover<T>(size: nat, s: seq<T>)
    requires size > 0
    ensures Flatten(Windows(size, s)) + Remainder(size, s) == s
    ensures |Remainder(size, s)| < size
    decreases |s|
  {
    if |s| >= size {
      WindowsStep(size, s);
      hide Windows, Remainder, Flatten;
      var head, tail := s[..size], s[size..];
      WindowsCover(size, tail);
      FlattenHead(head, Windows(size, tail));
      Joined(head, Flatten(Windows(size, tail)), Remainder(size, tail));
    }
  }

  lemma {:induction false} WindowsAreFull<T>(size: nat, s: seq<T>, k: nat)
    requires size > 0 && k < |Windows(size, s)|
    ensures |Windows(size, s)[k]| == size
    decreases |s|
  {
    if k > 0 {
      WindowsAreFull(size, s[size..], k - 1);
    }
  }

  /** Pushing a then b yields what pushing a + b at once does. */
  lemma {:induction false} PushSplit<T>(size: nat, a: seq<T>, b: seq<T>)
    requires size > 0
    ensures Windows(size, a + b) == Windows(size, a) + Windows(size, Remainder(size, a) + b)
    ensures Remainder(size, a + b) == Remainder(size, Remainder(size, a) + b)
    decreases |a|
  {
    if |a| >= size {
      PushSplit(size, a[size..], b);
      assert (a + b)[..size] == a[..size];
      assert (a + b)[size..] == a[size..] + b;
    }
  }

  lemma {:induction false} WindowCount<T>(size: nat, s: seq<T>)
    requires size > 0
    ensures |Windows(size, s)| == |s| / size
    decreases |s|
  {
    if |s| >= size {
      WindowCount(size, s[size..]);
      var q := (|s| - size) / size;
      ModUnique(|s|, q + 1, (|s| - size) % size, size);
    } else {
      ModUnique(|s|, 0, |s|, size);
    }
  }

  class Windower {
    const size: nat
    var buf: seq<real>

    constructor (n: nat)
      ensures size == n && buf == []
    {
      size, buf := n, [];
    }

    method Push(samples: seq<real>) returns (windows: seq<Window>)
      requires size > 0
      modifies this
      ensures windows == Windows(size, old(buf) + samples)
      ensures buf == Remainder(size, old(buf) + samples)
    {
      buf := buf + samples;
      windows := [];
      var consumed := 0;
      while |buf| - consumed >= size
        invariant 0 <= consumed <= |buf|
        invariant buf == old(buf) + samples
        invariant windows + Windows(size, buf[consumed..]) == Windows(size, buf)
        invariant Remainder(size, buf[consumed..]) == Remainder(size, buf)
      {
        assert buf[consumed..][..size] == buf[consumed..consumed + size];
        assert buf[consumed..][size..] == buf[consumed + size..];
        windows := windows + [buf[consumed..consumed + size]];
        consumed := consumed + size;
      }
      if consumed > 0 {
        buf := buf[consumed..];
      }
    }
  }

  // ---- one frame at a time -------------------------------------------------------------------

  function DecodeMuLaw(frame: seq<Byte>): (r: seq<real>)
    ensures |r| == |frame|
  {
    seq(|frame|, i requires 0 <= i < |frame| => MuLawToLinear(frame[i]) as real / 32768.0)
  }

  /**
   A decoded sample is its code's share of full scale: never clipped, zero at 0xFF, and within one
   part in fifty of one at the loudest.
   */
  lemma DecodedInRange(frame: seq<Byte>, i: nat)
    requires i < |frame|
    ensures -1.0 < DecodeMuLaw(frame)[i] < 1.0
    ensures frame[i] == MULAW_SILENCE ==> DecodeMuLaw(frame)[i] == 0.0
    ensures frame[i] == 0x80 ==> DecodeMuLaw(frame)[i] > 0.98
    ensures frame[i] == 0x00 ==> DecodeMuLaw(frame)[i] < -0.98
    ensures DecodeMuLaw(frame)[i] * 32768.0 == MuLawToLinear(frame[i]) as real
  {
    assert MuLawToLinear(0) == -32124 && MuLawToLinear(255) == 0 && MuLawToLinear(0x80) == 32124;
    hide MuLawToLinear;
  }

  lemma DecodeAppend(a: seq<Byte>, b: seq<Byte>)
    ensures DecodeMuLaw(a + b) == DecodeMuLaw(a) + DecodeMuLaw(b)
  {
    forall i | 0 <= i < |a + b|
      ensures DecodeMuLaw(a + b)[i] == (DecodeMuLaw(a) + DecodeMuLaw(b))[i]
    {
    }
  }

  /** What the detector says of each window, given all the windows up to it. */
  function Probs(det: Detector, windows: seq<Window>): (r: seq<real>)
    ensures |r| == |windows|
  {
    seq(|windows|, i requires 0 <= i < |windows| => det(windows[..i + 1]))
  }

  function MachineAfter(c: VADConfig, m: Machine, probs: seq<real>): Machine
    requires Resolved(c)
    decreases |probs|
  {
    if probs == [] then m else MachineAfter(c, Step(c, m, probs[0]).0, probs[1..])
  }

  lemma {:induction false} EventsAppend(c: VADConfig, m: Machine, a: seq<real>, b: seq<real>)
    requires Resolved(c)
    ensures Events(c, m, a + b) == Events(c, m, a) + Events(c, MachineAfter(c, m, a), b)
    ensures MachineAfter(c, m, a + b) == MachineAfter(c, MachineAfter(c, m, a), b)
    decreases |a|
  {
    hide Step;
    if a == [] {
      assert a + b == b;
    } else {
      EventsAppend(c, Step(c, m, a[0]).0, a[1..], b);
      assert (a + b)[1..] == a[1..] + b;
    }
  }

  /** Everything the loop holds between frames, with the windows and outcomes so far. */
  datatype Stream = Stream(buf: seq<real>, windows: seq<Window>, outcomes: seq<Option<VADEvent>>, machine: Machine)

  const IDLE := Stream([], [], [], FRESH)

  /** One frame: cut the windows it completes, detect and step each of them. */
  function Feed(c: VADConfig, det: Detector, s: Stream, frame: seq<Byte>): Stream
    requires Resolved(c)
  {
    var samples := s.buf + DecodeMuLaw(frame);
    var cut := Windows(c.windowSize, samples);
    var probs := Probs(det, s.windows + cut)[|s.windows|..];
    Stream(Remainder(c.windowSize, samples), s.windows + cut,
           s.outcomes + Events(c, s.machine, probs), MachineAfter(c, s.machine, probs))
  }

  function FeedAll(c: VADConfig, det: Detector, frames: seq<seq<Byte>>): Stream
    requires Resolved(c)
  {
    if frames == [] then IDLE else Feed(c, det, FeedAll(c, det, frames[..|frames| - 1]), frames[|frames| - 1])
  }

  /** The same state computed from the whole byte stream at once. */
  function Whole(c: VADConfig, det: Detector, bytes: seq<Byte>): Stream
    requires Resolved(c)
  {
    var samples := DecodeMuLaw(bytes);
    var windows := Windows(c.windowSize, samples);
    var probs := Probs(det, windows);
    Stream(Remainder(c.windowSize, samples), windows, Events(c, FRESH, probs), MachineAfter(c, FRESH, probs))
  }

  lemma FeedExtendsWhole(c: VADConfig, det: Detector, bytes: seq<Byte>, frame: seq<Byte>)
    requires Resolved(c)
    ensures Feed(c, det, Whole(c, det, bytes), frame) == Whole(c, det, bytes + frame)
  {
    hide Events, MachineAfter, Windows, Remainder, DecodeMuLaw;
    DecodeAppend(bytes, frame);
    PushSplit(c.windowSize, DecodeMuLaw(bytes), DecodeMuLaw(frame));
    var early := Whole(c, det, bytes).windows;
    var all := Whole(c, det, bytes + frame).windows;
    assert all[..|early|] == early;
    assert Probs(det, all)[..|early|] == Probs(det, early) by {
      forall i | 0 <= i < |early|
        ensures Probs(det, all)[i] == Probs(det, early)[i]
      {
        assert all[..i + 1] == early[..i + 1];
      }
    }
    var late := Probs(det, all)[|early|..];
    assert Probs(det, all) == Probs(det, early) + late;
    EventsAppend(c, FRESH, Probs(det, early), late);
  }

  /** Feeding frame by frame reaches the state of the concatenated bytes. */
  lemma {:induction false} FeedAllIsWhole(c: VADConfig, det: Detector, frames: seq<seq<Byte>>)
    requires Resolved(c)
    ensures FeedAll(c, det, frames) == Whole(c, det, Flatten(frames))
    decreases |frames|
  {
    hide Feed;
    if frames == [] {
      assert Probs(det, []) == [];
      assert DecodeMuLaw([]) == [];
    } else {
      var front, last := frames[..|frames| - 1], frames[|frames| - 1];
      FeedAllIsWhole(c, det, front);
      FeedExtendsWhole(c, det, Flatten(front), last);
    }
  }

  /** Two splittings of the same bytes give the same windows, events, machine and remainder. */
  lemma FramingIrrelevant(c: VADConfig, det: Detector, f: seq<seq<Byte>>, g: seq<seq<Byte>>)
    requires Resolved(c)
    requires Flatten(f) == Flatten(g)
    ensures FeedAll(c, det, f) == FeedAll(c, det, g)
  {
    FeedAllIsWhole(c, det, f);
    FeedAllIsWhole(c, det, g);
  }

  // ---- the loop ------------------------------------------------------------------------------

  /** The events proper, in order. */
  function Raised(outcomes: seq<Option<VADEvent>>): seq<VADEvent> {
    if outcomes == [] then []
    else Raised(outcomes[..|outcomes| - 1]) +
         (if outcomes[|outcomes| - 1].Some? then [outcomes[|outcomes| - 1].value] else [])
  }

  /** The windows that raised nothing. */
  function Quiet(outcomes: seq<Option<VADEvent>>): nat {
    if outcomes == [] then 0
    else Quiet(outcomes[..|outcomes| - 1]) + if outcomes[|outcomes| - 1].None? then 1 else 0
  }

  lemma {:induction false} EveryWindowSettles(outcomes: seq<Option<VADEvent>>)
    ensures |Raised(outcomes)| + Quiet(outcomes) == |outcomes|
    decreases |outcomes|
  {
    if outcomes != [] {
      EveryWindowSettles(outcomes[..|outcomes| - 1]);
    }
  }

  lemma {:induction false} RaisedAppend(a: seq<Option<VADEvent>>, b: seq<Option<VADEvent>>)
    ensures Raised(a + b) == Raised(a) + Raised(b)
    ensures Quiet(a + b) == Quiet(a) + Quiet(b)
    decreases |b|
  {
    if b == [] {
      assert a + b == a;
    } else {
      RaisedAppend(a, b[..|b| - 1]);
      assert (a + b)[..|a + b| - 1] == a + b[..|b| - 1];
    }
  }

  lemma OneMore(c: VADConfig, m: Machine, probs: seq<real>, j: nat)
    requires Resolved(c) && j < |probs|
    ensures var n := MachineAfter(c, m, probs[..j]);
            var ev := Step(c, n, probs[j]).1;
            var done, more := Events(c, m, probs[..j]), Events(c, m, probs[..j + 1]);
            && MachineAfter(c, m, probs[..j + 1]) == Step(c, n, probs[j]).0
            && Raised(more) == Raised(done) + (if ev.Some? then [ev.value] else [])
            && Quiet(more) == Quiet(done) + if ev.None? then 1 else 0
  {
    hide Step;
    EventsAppend(c, m, probs[..j], [probs[j]]);
    assert probs[..j] + [probs[j]] == probs[..j + 1];
    var done, more := Events(c, m, probs[..j]), Events(c, m, probs[..j + 1]);
    assert more[..j] == done;
  }

  /** The windows one frame completes, each detected and stepped in turn. */
  method StepWindows(m: VADMachine, det: Detector, seen: seq<Window>, cut: seq<Window>)
    returns (out: seq<VADEvent>, quiet: nat)
    requires Resolved(m.cfg)
    modifies m
    ensures var probs := Probs(det, seen + cut)[|seen|..];
            && m.State() == MachineAfter(m.cfg, old(m.State()), probs)
            && out == Raised(Events(m.cfg, old(m.State()), probs))
            && quiet == Quiet(Events(m.cfg, old(m.State()), probs))
  {
    hide Step;
    var all := seen + cut;
    ghost var probs := Probs(det, all)[|seen|..];
    out, quiet := [], 0;
    assert probs[..0] == [];
    for j := 0 to |cut|
      invariant m.State() == MachineAfter(m.cfg, old(m.State()), probs[..j])
      invariant out == Raised(Events(m.cfg, old(m.State()), probs[..j]))
      invariant quiet == Quiet(Events(m.cfg, old(m.State()), probs[..j]))
    {
      OneMore(m.cfg, old(m.State()), probs, j);
      assert probs[j] == det(all[..|seen| + j + 1]);
      var ev := m.Advance(det(all[..|seen| + j + 1]));
      if ev.None? {
        quiet := quiet + 1;
      } else {
        out := out + [ev.value];
      }
    }
    assert probs[..|cut|] == probs;
  }

  /** The loop of the VAD goroutine, over all the frames its channel delivers before it closes. */
  method RunVAD(frames: seq<seq<Byte>>, det: Detector, cfg: VADConfig) returns (out: seq<VADEvent>, quiet: nat)
    ensures Resolved(WithDefaults(cfg))
    ensures var outcomes := Whole(WithDefaults(cfg), det, Flatten(frames)).outcomes;
            out == Raised(outcomes) && quiet == Quiet(outcomes)
    ensures |out| + quiet == |Flatten(frames)| / WithDefaults(cfg).windowSize
  {
    hide Windows, Remainder, Events, MachineAfter, DecodeMuLaw;
    var c := WithDefaults(cfg);
    var w := new Windower(c.windowSize);
    var m := new VADMachine(c);
    out, quiet := [], 0;
    var seen: seq<Window> := [];
    for i := 0 to |frames|
      invariant m.cfg == c && w.size == c.windowSize
      invariant var s := FeedAll(c, det, frames[..i]);
                && w.buf == s.buf && seen == s.windows && m.State() == s.machine
                && out == Raised(s.outcomes) && quiet == Quiet(s.outcomes)
    {
      assert frames[..i + 1][..i] == frames[..i];
      ghost var s := FeedAll(c, det, frames[..i]);
      var cut := w.Push(DecodeMuLaw(frames[i]));
      RaisedAppend(s.outcomes, Events(c, s.machine, Probs(det, seen + cut)[|seen|..]));
      var more, none := StepWindows(m, det, seen, cut);
      seen, out, quiet := seen + cut, out + more, quiet + none;
    }
    assert frames[..|frames|] == frames;
    FeedAllIsWhole(c, det, frames);
    EveryWindowSettles(Whole(c, det, Flatten(frames)).outcomes);
    WindowCount(c.windowSize, DecodeMuLaw(Flatten(frames)));
  }
}
