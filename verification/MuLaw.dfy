/**
 G.711 mu-law, one byte a sample: the decoder of Tables 2a and 2b of Recommendation
 ITU-T G.711 in its bias-and-shift form, and the encoder that searches all 256 codes.
 */
module MuLaw {
  import opened Common

  const MULAW_SILENCE: Byte := 0xFF
  const BIAS := 0x84

  type Sample = s: int | -32768 <= s < 32768

  function Shift(exponent: nat): (p: nat)
    requires exponent < 8
    ensures 1 <= p <= 128
  {
    match exponent
    case 0 => 1
    case 1 => 2
    case 2 => 4
    case 3 => 8
    case 4 => 16
    case 5 => 32
    case 6 => 64
    case _ => 128
  }

  /** The magnitude of a complemented code without its sign bit. */
  function Magnitude(code: nat): (m: nat)
    requires code < 128
    ensures m <= 32124
  {
    (code % 16 * 8 + BIAS) * Shift(code / 16) - BIAS
  }

  function MuLawToLinear(u: Byte): (s: Sample)
    ensures -32124 <= s <= 32124
  {
    var c: int := 255 - u;
    if c >= 128 then -(Magnitude(c - 128) as int) else Magnitude(c)
  }

  function Abs(v: int): nat { if v < 0 then -v else v }

  function Err(sample: Sample, b: Byte): nat { Abs(sample - MuLawToLinear(b)) }

  /** One code is preferred to another: nearer, or as near and louder, or the higher zero. */
  predicate Better(sample: Sample, b: Byte, than: Byte) {
    var e, f := Err(sample, b), Err(sample, than);
    var m, n := Abs(MuLawToLinear(b)), Abs(MuLawToLinear(than));
    e < f || (e == f && m > n) || (e == f && m == n && m == 0 && b > than)
  }

  ghost predicate IsBest(sample: Sample, r: Byte) {
    forall b: Byte :: !Better(sample, b, r)
  }

  lemma Extremes()
    ensures MuLawToLinear(0) == -32124 && MuLawToLinear(255) == 0
  {
  }

  lemma BeatenStaysBeaten(s: Sample, c: Byte, best: Byte, b: Byte)
    requires !Better(s, c, best) && Better(s, b, best)
    ensures !Better(s, c, b)
  {
    hide MuLawToLinear;
  }

  /** The nearest code, ties to the louder one and the last tie to 0xFF. */
  method LinearToMuLaw(sample: Sample) returns (best: Byte)
    ensures IsBest(sample, best)
  {
    Extremes();
    hide Magnitude, MuLawToLinear;
    var minErr := 32768;
    best := MULAW_SILENCE;
    var bestMag := 0;
    var found := false;
    var b := 0;
    while b <= 255
      invariant 0 <= b <= 256
      invariant !found ==> minErr == 32768 && best == MULAW_SILENCE && bestMag == 0
      invariant !found ==> forall c: Byte :: c < b ==>
                  Err(sample, c) > 32768 || (Err(sample, c) == 32768 && MuLawToLinear(c) == 0)
      invariant found ==> minErr == Err(sample, best) <= 32768 && bestMag == Abs(MuLawToLinear(best)) && best < b
      invariant found ==> forall c: Byte :: c < b ==> !Better(sample, c, best)
      decreases 256 - b
    {
      var decoded := MuLawToLinear(b);
      var err := Abs(sample - decoded);
      var mag := Abs(decoded);
      if err < minErr || (err == minErr && mag > bestMag)
         || (err == minErr && mag == bestMag && mag == 0 && b > best) {
        forall c: Byte | c < b
          ensures !Better(sample, c, b)
        {
          if found { BeatenStaysBeaten(sample, c, best, b); }
        }
        minErr, bestMag, best, found := err, mag, b, true;
      }
      b := b + 1;
    }
    assert Err(sample, 0) == Abs(sample + 32124) && Err(sample, 255) == Abs(sample);
  }

  // ---- the codec laws ----------------------------------------------------------------------

  lemma ShiftDoubles(e: nat)
    requires e < 7
    ensures Shift(e + 1) == 2 * Shift(e)
  {
  }

  function PowerOfTwo(e: nat): nat { if e == 0 then 1 else 2 * PowerOfTwo(e - 1) }

  lemma {:induction false} ShiftIsPower(e: nat)
    requires e < 8
    ensures Shift(e) == PowerOfTwo(e)
  {
    if e > 0 { ShiftIsPower(e - 1); }
  }

  /**
   The distance from one level of the decoding table to the next: doubling by segment, half as much
   again across a boundary.
   */
  function Interval(c: nat): nat { (if c % 16 == 15 then 12 else 8) * PowerOfTwo(c / 16) }

  lemma NextLevel(c: nat)
    requires c < 127
    ensures Magnitude(c + 1) == Magnitude(c) + Interval(c) && Interval(c) > 0
  {
    var e, m := c / 16, c % 16;
    ShiftIsPower(e);
    if m < 15 {
      assert (c + 1) / 16 == e && (c + 1) % 16 == m + 1;
      hide Shift, PowerOfTwo;
      assert ((m + 1) * 8 + BIAS) * Shift(e) == (m * 8 + BIAS) * Shift(e) + 8 * Shift(e);
    } else {
      assert (c + 1) / 16 == e + 1 && (c + 1) % 16 == 0;
      ShiftDoubles(e);
      hide Shift, PowerOfTwo;
    }
  }

  /** The table's shape: zero at 0xFF, every next level one interval louder, and the lower half the upper one negated. */
  lemma DecodesByTheTable(c: Byte)
    ensures MuLawToLinear(255) == 0
    ensures c < 127 ==> MuLawToLinear(254 - c) == MuLawToLinear(255 - c) + Interval(c)
    ensures c < 128 ==> MuLawToLinear(127 - c) == -MuLawToLinear(255 - c)
  {
    assert Magnitude(0) == 0;
    hide Interval, Magnitude;
    if c < 127 {
      NextLevel(c);
    }
  }

  /** Louder codes decode to strictly larger magnitudes. */
  lemma {:induction false} MagnitudeGrows(c: nat, d: nat)
    requires c < d < 128
    ensures Magnitude(c) < Magnitude(d)
    decreases d - c
  {
    hide Magnitude, Interval;
    if c + 1 == d {
      NextLevel(c);
    } else {
      MagnitudeGrows(c, d - 1);
      NextLevel(d - 1);
    }
  }

  lemma MagnitudeInjective(x: nat, y: nat)
    requires x < 128 && y < 128 && Magnitude(x) == Magnitude(y)
    ensures x == y
  {
    hide Magnitude;
    if x < y {
      MagnitudeGrows(x, y);
    } else if y < x {
      MagnitudeGrows(y, x);
    }
  }

  /** Only the two zeros share a decoded value. */
  lemma DecodeInjective(a: Byte, b: Byte)
    requires MuLawToLinear(a) == MuLawToLinear(b)
    ensures a == b || (MuLawToLinear(a) == 0 && a in {0x7F, 0xFF} && b in {0x7F, 0xFF})
  {
    var x: nat := if a < 128 then 127 - a else 255 - a;
    var y: nat := if b < 128 then 127 - b else 255 - b;
    assert Magnitude(0) == 0;
    hide Magnitude;
    MagnitudeInjective(x, y);
    if Magnitude(x) == 0 {
      MagnitudeInjective(x, 0);
    }
  }

  /** The one code a decode-encode round trip changes: negative zero becomes positive. */
  function Canonical(b: Byte): Byte { if b == 0x7F then 0xFF else b }

  /** Encoding a decoded code gives that code back, negative zero apart. */
  lemma EncodeInvertsDecode(b: Byte, r: Byte)
    requires IsBest(MuLawToLinear(b), r)
    ensures r == Canonical(b)
  {
    hide Magnitude;
    var s := MuLawToLinear(b);
    assert !Better(s, b, r);
    assert Err(s, b) == 0;
    assert MuLawToLinear(r) == s;
    DecodeInjective(b, r);
    Extremes();
    if s == 0 {
      assert !Better(s, 255, r);
    }
  }

  /** The tie rule leaves no choice: the best code for a sample is unique. */
  lemma BestIsUnique(s: Sample, p: Byte, q: Byte)
    requires IsBest(s, p) && IsBest(s, q)
    ensures p == q
  {
    hide Magnitude, MuLawToLinear;
    Extremes();
    var x, y := MuLawToLinear(p), MuLawToLinear(q);
    assert !Better(s, p, q) && !Better(s, q, p);
    assert !Better(s, 255, p);
    if x == y {
      DecodeInjective(p, q);
    }
  }

  // ---- which samples a code stands for ---------------------------------------------------------------

  lemma {:induction false} MagnitudeAtMost(c: nat, d: nat)
    requires c <= d < 128
    ensures Magnitude(c) <= Magnitude(d)
  {
    hide Magnitude;
    if c < d { MagnitudeGrows(c, d); }
  }

  /** Nearer level c than any other, a tie with the level below going to c. */
  predicate Nearest(m: nat, c: nat)
    requires c < 128
  {
    && (c > 0 ==> 2 * m >= Magnitude(c - 1) + Magnitude(c))
    && (c < 127 ==> 2 * m < Magnitude(c) + Magnitude(c + 1))
  }

  /** No other level is as near, unless it is quieter. */
  lemma NearestIsNearer(m: nat, c: nat, d: nat)
    requires c < 128 && d < 128 && c != d && Nearest(m, c)
    ensures Abs(m - Magnitude(c)) < Abs(m - Magnitude(d))
            || (Abs(m - Magnitude(c)) == Abs(m - Magnitude(d)) && Magnitude(c) > Magnitude(d))
  {
    hide Magnitude;
    if d < c {
      MagnitudeAtMost(d, c - 1);
      MagnitudeGrows(c - 1, c);
    } else {
      MagnitudeAtMost(c + 1, d);
      MagnitudeGrows(c, c + 1);
    }
  }

  /** Nor is any level across zero, unless both are zero. */
  lemma AcrossIsFurther(m: nat, c: nat, d: nat)
    requires c < 128 && d < 128 && Nearest(m, c)
    ensures Abs(m - Magnitude(c)) < m + Magnitude(d)
            || (Abs(m - Magnitude(c)) == m + Magnitude(d) && (Magnitude(c) > Magnitude(d) || (c == 0 && d == 0)))
  {
    assert Magnitude(0) == 0;
    hide Magnitude;
    if c > 0 {
      MagnitudeGrows(c - 1, c);
      MagnitudeAtMost(0, c - 1);
    } else if d > 0 {
      MagnitudeGrows(0, d);
    }
  }

  function Level(b: Byte): nat { if b >= 128 then 255 - b else 127 - b }

  lemma DecodesToLevel(b: Byte)
    ensures Level(b) < 128
    ensures MuLawToLinear(b) == if b >= 128 then Magnitude(Level(b)) else -(Magnitude(Level(b)) as int)
    ensures Level(b) == 0 ==> MuLawToLinear(b) == 0
  {
    assert Magnitude(0) == 0;
    hide Magnitude;
  }

  /** The encoder's decision above zero: a sample goes to its nearest level, one midway between two to the louder. */
  lemma EncodesToNearest(s: Sample, c: nat, r: Byte)
    requires c < 128 && 0 <= s && Nearest(s, c) && IsBest(s, r)
    ensures r == 255 - c
  {
    DecodesToLevel(r);
    DecodesToLevel(255 - c);
    assert !Better(s, 255 - c, r);
    hide Magnitude, MuLawToLinear, Nearest, IsBest;
    if r >= 128 && r != 255 - c {
      NearestIsNearer(s, c, Level(r));
    } else if r < 128 {
      AcrossIsFurther(s, c, Level(r));
    }
  }

  /** And below it: the same level with the other sign, except that zero has one code. */
  lemma EncodesBelowZero(s: Sample, c: nat, r: Byte)
    requires c < 128 && s < 0 && Nearest(-(s as int), c) && IsBest(s, r)
    ensures r == if c == 0 then 255 else 127 - c
  {
    var best: Byte := if c == 0 then 255 else 127 - c;
    DecodesToLevel(r);
    DecodesToLevel(best);
    assert !Better(s, best, r);
    hide Magnitude, MuLawToLinear, Nearest, IsBest;
    if r < 128 && Level(r) != c {
      NearestIsNearer(-(s as int), c, Level(r));
    } else if r >= 128 {
      AcrossIsFurther(-(s as int), c, Level(r));
    }
  }
}
