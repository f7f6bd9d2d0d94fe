/** Small shared vocabulary: options, results, bytes, flattening and the cyclic clip. */
module Common {

  datatype Option<+T> = None | Some(value: T)

  datatype Result<+T, +E> = Ok(value: T) | Err(error: E)

  type Byte = b: int | 0 <= b < 256

  function Min(a: int, b: int): int { if a <= b then a else b }

  function Max(a: int, b: int): int { if a >= b then a else b }

  /** Concatenation of a sequence of sequences, in order. */
  function Flatten<T>(parts: seq<seq<T>>): seq<T> {
    if parts == [] then [] else Flatten(parts[..|parts| - 1]) + parts[|parts| - 1]
  }

  lemma FlattenAppend<T>(parts: seq<seq<T>>, last: seq<T>)
    ensures Flatten(parts + [last]) == Flatten(parts) + last
  {
    assert (parts + [last])[..|parts|] == parts;
  }

  lemma {:induction false} FlattenConcat<T>(a: seq<seq<T>>, b: seq<seq<T>>)
    ensures Flatten(a + b) == Flatten(a) + Flatten(b)
    decreases |b|
  {
    if b == [] {
      assert a + b == a;
    } else {
      var front, last := b[..|b| - 1], b[|b| - 1];
      assert a + b == (a + front) + [last];
      FlattenAppend(a + front, last);
      FlattenConcat(a, front);
    }
  }

  lemma FlattenHead<T>(head: seq<T>, tail: seq<seq<T>>)
    ensures Flatten([head] + tail) == head + Flatten(tail)
  {
    FlattenConcat([head], tail);
    FlattenAppend([], head);
    assert [] + [head] == [head];
  }

  lemma Joined<T>(a: seq<T>, b: seq<T>, c: seq<T>)
    ensures (a + b) + c == a + (b + c)
  {
  }
}

/** What the whole call path agrees on: voice events, the sample rate, frame sizes and buffer depths. */
module Telephony {

  datatype VoiceKind = Speech | Silence | EndOfUtterance | TurnEnd

  const SAMPLE_RATE_HZ := 8000

  /** Twenty milliseconds of mu-law, the frame the carrier is sent. */
  const FRAME_BYTES := 160

  /** The data plane's depth: the forward buffer and the channels of the voice service. */
  const PLANE_DEPTH := 4
}

/** Cardinality facts about finite sets and images. */
module Sizes {

  lemma SubsetSize<T>(a: set<T>, b: set<T>)
    requires a <= b
    ensures |a| <= |b|
  {
    assert b == a + (b - a);
  }

  function Image<K, T>(m: map<K, T>, keys: set<K>): set<T>
    requires keys <= m.Keys
  {
    set k | k in keys :: m[k]
  }

  /** A map takes a set of its keys to at most as many values. */
  lemma {:induction false} ImageBounded<K, T>(m: map<K, T>, keys: set<K>)
    requires keys <= m.Keys
    ensures |Image(m, keys)| <= |keys|
    decreases |keys|
  {
    if keys == {} {
      assert Image(m, keys) == {};
    } else {
      var key :| key in keys;
      var rest := keys - {key};
      ImageBounded(m, rest);
      SubsetSize(Image(m, keys), Image(m, rest) + {m[key]});
    }
  }
}

/** A clip repeated forever, and the arithmetic of walking round it. */
module CyclicClip {

  /** The n elements of clip^omega that start at position off. */
  function Loop<T>(clip: seq<T>, off: nat, n: nat): (r: seq<T>)
    requires |clip| > 0
    ensures |r| == n
  {
    seq(n, i requires 0 <= i => clip[(off + i) % |clip|])
  }

  lemma MulAtLeast(k: int, n: int)
    requires k >= 1 && n >= 0
    ensures k * n >= n
  {
    if k > 1 {
      MulAtLeast(k - 1, n);
      assert k * n == (k - 1) * n + n;
    }
  }

  /** Quotient and remainder are unique. */
  lemma ModUnique(x: int, q: int, r: int, n: int)
    requires 0 <= r < n
    requires x == q * n + r
    ensures x % n == r && x / n == q
  {
    var q', r' := x / n, x % n;
    assert x == n * q' + r';
    assert n * q' == q' * n;
    assert (q' - q) * n == r - r';
    if q' > q {
      MulAtLeast(q' - q, n);
    } else if q' < q {
      assert (q - q') * n == -((q' - q) * n);
      MulAtLeast(q - q', n);
    }
  }

  /** Reducing a position first does not change where a later offset lands. */
  lemma ModShift(a: nat, b: nat, n: nat)
    requires n > 0
    ensures ((a % n) + b) % n == (a + b) % n
  {
    var q := ((a % n) + b) / n;
    assert (a / n + q) * n == (a / n) * n + q * n;
    ModUnique(a + b, a / n + q, ((a % n) + b) % n, n);
  }

  /** A chunk read after n elements continues exactly where those n stopped. */
  lemma LoopAppend<T>(clip: seq<T>, off: nat, n: nat, m: nat)
    requires |clip| > 0
    ensures Loop(clip, off, n) + Loop(clip, off + n, m) == Loop(clip, off, n + m)
  {
  }

  /** Only the position modulo the clip length matters. */
  lemma LoopReduced<T>(clip: seq<T>, off: nat, n: nat)
    requires |clip| > 0
    ensures Loop(clip, off % |clip|, n) == Loop(clip, off, n)
  {
    var a, b := Loop(clip, off % |clip|, n), Loop(clip, off, n);
    forall i | 0 <= i < n
      ensures a[i] == b[i]
    {
      ModShift(off, i, |clip|);
    }
  }

  /** A stretch that does not reach the end of the clip is a plain slice of it. */
  lemma LoopSlice<T>(clip: seq<T>, off: nat, n: nat)
    requires off + n <= |clip| && |clip| > 0
    ensures Loop(clip, off, n) == clip[off..off + n]
  {
    var a, b := Loop(clip, off, n), clip[off..off + n];
    forall i | 0 <= i < n
      ensures a[i] == b[i]
    {
      ModUnique(off + i, 0, off + i, |clip|);
    }
  }
}
