/** The driver's trailing silence: what padding a WAV keeps, and when its decoder can still read it. */
module PadSilence {
  import opened Common
  import opened MuLaw
  import opened Wav
  import CyclicClip

  /** The byte rate of the last readable format chunk visited, or the one before. */
  function RateOver(wav: seq<Byte>, visited: seq<Chunk>): nat {
    if visited == [] then 0
    else
      var c := visited[|visited| - 1];
      if c.id == FMT && c.body + 16 <= |wav| then Get32(wav, c.body + 8)
      else RateOver(wav, visited[..|visited| - 1])
  }

  /** What the walk found, when it is enough to pad. */
  datatype Plan = Plan(rate: nat, data: Chunk)

  function PlanOf(wav: seq<Byte>): Option<Plan> {
    if |wav| < 12 || wav[0..4] != RIFF || wav[8..12] != WAVE then None
    else
      var rate, data := RateOver(wav, Walk(wav, 12, NotData)), DataChunk(wav, 12);
      if rate == 0 || data.None? || data.value.body + data.value.size > |wav| then None
      else Some(Plan(rate, data.value))
  }

  function DataEnd(p: Plan): nat { p.data.body + p.data.size }

  /** One second of silence, or enough to reach four. */
  function PadBytes(p: Plan): nat { Max(p.rate, 4 * p.rate - p.data.size) }

  function NewSize(p: Plan): nat { p.data.size + PadBytes(p) }

  function Patch(s: seq<Byte>, i: nat, b: seq<Byte>): (r: seq<Byte>)
    requires i + |b| <= |s|
    ensures |r| == |s|
  {
    s[..i] + b + s[i + |b|..]
  }

  function Zeros(n: nat): seq<Byte> { seq(n, i => 0) }

  lemma {:induction false} DataWithin(wav: seq<Byte>, i: nat)
    requires DataChunk(wav, i).Some?
    ensures var c := DataChunk(wav, i).value;
            c.body >= i + 8 && c.body <= |wav| && c.id == DATA
    decreases |wav| - i
  {
    var c := ChunkAt(wav, i);
    if c.id != DATA {
      DataWithin(wav, Past(c));
    }
  }

  function Lengthened(wav: seq<Byte>, p: Plan): (body: seq<Byte>)
    requires DataEnd(p) <= |wav|
    ensures |body| == DataEnd(p) + PadBytes(p)
  {
    wav[..DataEnd(p)] + Zeros(PadBytes(p))
  }

  /** Everything up to the end of the data, then the silence, then the two sizes corrected. */
  function PaddedBy(wav: seq<Byte>, p: Plan): (out: seq<Byte>)
    requires 12 + 8 <= p.data.body && DataEnd(p) <= |wav|
    ensures |out| == DataEnd(p) + PadBytes(p)
  {
    var body := Lengthened(wav, p);
    Patch(Patch(body, p.data.body - 4, Put32(NewSize(p))), 4, Put32(|body| - 8))
  }

  function Padded(wav: seq<Byte>): seq<Byte> {
    var plan := PlanOf(wav);
    if plan.None? then wav
    else
      DataWithin(wav, 12);
      PaddedBy(wav, plan.value)
  }

  method ScanRate(wav: seq<Byte>, visited: seq<Chunk>) returns (rate: nat)
    ensures rate == RateOver(wav, visited)
  {
    hide Get32;
    rate := 0;
    for k := 0 to |visited|
      invariant rate == RateOver(wav, visited[..k])
    {
      var c := visited[k];
      assert visited[..k + 1][..k] == visited[..k];
      if c.id == FMT && c.body + 16 <= |wav| {
        rate := Get32(wav, c.body + 8);
      }
    }
    assert visited[..|visited|] == visited;
  }

  method PadWAVSilence(wav: seq<Byte>) returns (out: seq<Byte>)
    ensures out == Padded(wav)
  {
    if |wav| < 12 || wav[0..4] != RIFF || wav[8..12] != WAVE { return wav; }
    var visited := WalkWAVChunks(wav, NotData);
    var byteRate := ScanRate(wav, visited);
    WalkEndsAtData(wav, 12);
    hide RateOver, Walk, DataChunk, Put32;
    if visited == [] || visited[|visited| - 1].id != DATA { return wav; }
    var data := visited[|visited| - 1];
    if byteRate == 0 || data.body + data.size > |wav| { return wav; }
    DataWithin(wav, 12);
    out := BuildPadded(wav, Plan(byteRate, data));
  }

  method BuildPadded(wav: seq<Byte>, p: Plan) returns (out: seq<Byte>)
    requires 12 + 8 <= p.data.body && DataEnd(p) <= |wav|
    ensures out == PaddedBy(wav, p)
  {
    hide Put32, Patch, Lengthened;
    var buf := Lengthen(wav, p);
    Overwrite(buf, p.data.body - 4, Put32(NewSize(p)));
    Overwrite(buf, 4, Put32(buf.Length - 8));
    out := buf[..];
  }

  method Lengthen(wav: seq<Byte>, p: Plan) returns (buf: array<Byte>)
    requires DataEnd(p) <= |wav|
    ensures fresh(buf) && buf[..] == Lengthened(wav, p)
  {
    var dataEnd := p.data.body + p.data.size;
    var padBytes := p.rate;
    if 4 * p.rate - p.data.size > padBytes {
      padBytes := 4 * p.rate - p.data.size;
    }
    buf := new Byte[dataEnd + padBytes];
    CopyInto(buf, 0, wav[..dataEnd]);
    CopyInto(buf, dataEnd, Zeros(padBytes));
    assert buf[..] == buf[..dataEnd + padBytes];
  }

  method Overwrite(a: array<Byte>, off: nat, bytes: seq<Byte>)
    requires off + |bytes| <= a.Length
    modifies a
    ensures a[..] == Patch(old(a[..]), off, bytes)
  {
    CopyInto(a, off, bytes);
    assert a[..] == a[..off + |bytes|] + a[off + |bytes|..];
  }

  // ---- what padding keeps ------------------------------------------------------------------------

  /** The two size fields apart, the padded file is the original up to its data's end and zeros after. */
  lemma PaddedBytes(wav: seq<Byte>, p: Plan, j: nat)
    requires 12 + 8 <= p.data.body && DataEnd(p) <= |wav| && j < |PaddedBy(wav, p)|
    ensures var at := p.data.body - 4;
            PaddedBy(wav, p)[j] ==
            if 4 <= j < 8 then Put32(|PaddedBy(wav, p)| - 8)[j - 4]
            else if at <= j < at + 4 then Put32(NewSize(p))[j - at]
            else if j < DataEnd(p) then wav[j]
            else 0
  {
    hide Put32;
  }

  lemma {:induction false} WalkPatched(wav: seq<Byte>, out: seq<Byte>, i: nat, c: Chunk, size: nat)
    requires DataChunk(wav, i) == Some(c) && c.body <= |out| && c.body <= |wav|
    requires i >= 12 && forall j :: 12 <= j < c.body - 4 ==> out[j] == wav[j]
    requires c.body >= 4 && Get32(out, c.body - 4) == size
    ensures var w := Walk(wav, i, NotData);
            w != [] && Walk(out, i, NotData) == w[..|w| - 1] + [Chunk(DATA, c.body, size)]
    ensures DataChunk(out, i) == Some(Chunk(DATA, c.body, size))
    decreases |wav| - i
  {
    var a := ChunkAt(wav, i);
    DataWithin(wav, i);
    assert out[i..i + 4] == wav[i..i + 4];
    if a.id == DATA {
      assert Walk(wav, i, NotData) == [a];
    } else {
      DataWithin(wav, Past(a));
      assert out[i + 4] == wav[i + 4] && out[i + 5] == wav[i + 5];
      assert out[i + 6] == wav[i + 6] && out[i + 7] == wav[i + 7];
      assert ChunkAt(out, i) == a;
      WalkPatched(wav, out, Past(a), c, size);
      var w := Walk(wav, Past(a), NotData);
      assert ([a] + w)[..|w|] == [a] + w[..|w| - 1];
    }
  }

  lemma SizeField(wav: seq<Byte>, p: Plan)
    requires 12 + 8 <= p.data.body && DataEnd(p) <= |wav| && NewSize(p) < U32
    ensures Get32(PaddedBy(wav, p), p.data.body - 4) == NewSize(p)
  {
    hide Put32, Get32, PaddedBy, NewSize;
    var out, at := PaddedBy(wav, p), p.data.body - 4;
    forall k | 0 <= k < 4
      ensures out[at..at + 4][k] == Put32(NewSize(p))[k]
    {
      PaddedBytes(wav, p, at + k);
    }
    Get32Put32(NewSize(p), out, at);
  }

  lemma EarlyBytes(wav: seq<Byte>, p: Plan, j: nat)
    requires 12 + 8 <= p.data.body && DataEnd(p) <= |wav| && 8 <= j < p.data.body - 4
    ensures PaddedBy(wav, p)[j] == wav[j]
  {
    hide PaddedBy;
    PaddedBytes(wav, p, j);
  }

  /**
   A padded file walks through the same chunks at the same offsets up to its data, whose new
   size runs exactly to the end of the file and is at least four seconds and the old size
   plus one.
   */
  lemma PaddingKeepsChunks(wav: seq<Byte>)
    requires PlanOf(wav).Some? && NewSize(PlanOf(wav).value) < U32
    ensures var p, out, w := PlanOf(wav).value, Padded(wav), Walk(wav, 12, NotData);
            && w != []
            && Walk(out, 12, NotData) == w[..|w| - 1] + [Chunk(DATA, p.data.body, NewSize(p))]
            && DataChunk(out, 12) == Some(Chunk(DATA, p.data.body, NewSize(p)))
            && p.data.body + NewSize(p) == |out|
            && NewSize(p) >= 4 * p.rate && NewSize(p) >= p.data.size + p.rate
  {
    hide Get32, Put32, PaddedBy, RateOver, DataChunk, Walk;
    var p := PlanOf(wav).value;
    DataWithin(wav, 12);
    SizeField(wav, p);
    forall j | 12 <= j < p.data.body - 4
      ensures PaddedBy(wav, p)[j] == wav[j]
    {
      EarlyBytes(wav, p, j);
    }
    WalkPatched(wav, PaddedBy(wav, p), 12, p.data, NewSize(p));
  }

  // ---- what its decoder makes of it ----------------------------------------------------------------

  /**
   The header the decoder insists on is still there: the file is long enough, and neither
   the corrected size nor the cut at the data's end has changed the bits-per-sample field.
   */
  ghost predicate StillReadable(wav: seq<Byte>, p: Plan) {
    var at := p.data.body - 4;
    && DataEnd(p) + PadBytes(p) >= 44
    && (at == 32 ==> NewSize(p) / 65536 == 16)
    && (at == 34 ==> NewSize(p) % 65536 == 16)
    && (at != 32 && at != 34 ==> DataEnd(p) >= 35)
  }

  /** Chunks start at even offsets. */
  lemma {:induction false} DataIsEven(wav: seq<Byte>, i: nat)
    requires i % 2 == 0 && DataChunk(wav, i).Some?
    ensures DataChunk(wav, i).value.body % 2 == 0
    decreases |wav| - i
  {
    var c := ChunkAt(wav, i);
    if c.id != DATA {
      assert Past(c) % 2 == 0;
      DataIsEven(wav, Past(c));
    }
  }

  lemma BitsField(wav: seq<Byte>, p: Plan)
    requires 12 + 8 <= p.data.body && p.data.body % 2 == 0 && DataEnd(p) <= |wav| && |wav| >= 44
    requires NewSize(p) < U32 && Get16(wav, 34) == 16 && DataEnd(p) + PadBytes(p) >= 44
    ensures Get16(PaddedBy(wav, p), 34) == 16 <==> StillReadable(wav, p)
  {
    var out, at, n := PaddedBy(wav, p), p.data.body - 4, NewSize(p);
    assert wav[34] == 16 && wav[35] == 0;
    Halves(n);
    hide PaddedBy, NewSize, PadBytes;
    PaddedBytes(wav, p, 34);
    PaddedBytes(wav, p, 35);
  }

  lemma Halves(n: nat)
    requires n < U32
    ensures n / 65536 == Put32(n)[2] as int + 256 * Put32(n)[3] as int
    ensures n % 65536 == Put32(n)[0] as int + 256 * Put32(n)[1] as int
  {
    Digits(n);
    CyclicClip.ModUnique(n, n / 65536 % 256 + 256 * (n / 16777216 % 256), n % 256 + 256 * (n / 256 % 256), 65536);
  }

  lemma {:induction false} FramesExtend(a: seq<Byte>, b: seq<Byte>, channels: nat, n: nat)
    requires channels > 0 && a <= b
    requires n <= FrameCount(|a|, channels) && n <= FrameCount(|b|, channels)
    ensures Frames(b, channels, n) == Frames(a, channels, n)
    decreases n
  {
    hide FrameCount, Mixed;
    if n > 0 {
      FrameFits(|a|, channels, n - 1);
      FramesExtend(a, b, channels, n - 1);
      MixedExtends(a, b, (n - 1) * (2 * channels), channels);
    }
  }

  lemma MixedExtends(a: seq<Byte>, b: seq<Byte>, off: nat, channels: nat)
    requires channels > 0 && a <= b && off + 2 * channels <= |a|
    ensures Mixed(b, off, channels) == Mixed(a, off, channels)
  {
    SumExtends(a, b, off, channels);
  }

  lemma {:induction false} SumExtends(a: seq<Byte>, b: seq<Byte>, off: nat, c: nat)
    requires a <= b && off + 2 * c <= |a|
    ensures ChannelSum(b, off, c) == ChannelSum(a, off, c)
    decreases c
  {
    if c > 0 {
      SumExtends(a, b, off, c - 1);
      assert SampleAt(b, off + 2 * (c - 1)) == SampleAt(a, off + 2 * (c - 1));
    }
  }

  lemma FrameCountGrows(a: nat, b: nat, channels: nat)
    requires channels > 0 && a <= b
    ensures FrameCount(a, channels) <= FrameCount(b, channels)
  {
    var x, y := a / 2, b / 2;
    var p, q := x / channels, y / channels;
    assert x == p * channels + x % channels && y == q * channels + y % channels;
    assert (p - q) * channels == p * channels - q * channels;
    if p > q {
      CyclicClip.MulAtLeast(p - q, channels);
    }
  }

  lemma {:induction false} FramesPrefix(data: seq<Byte>, channels: nat, m: nat, n: nat)
    requires channels > 0 && m <= n <= FrameCount(|data|, channels)
    ensures Frames(data, channels, n)[..m] == Frames(data, channels, m)
    decreases n
  {
    hide FrameCount, Mixed;
    if m < n {
      FrameFits(|data|, channels, n - 1);
      FramesPrefix(data, channels, m, n - 1);
    }
  }

  lemma SamplesKept(a: seq<Byte>, b: seq<Byte>, channels: nat)
    requires channels > 0 && a <= b
    ensures Frames(a, channels, FrameCount(|a|, channels)) <= Frames(b, channels, FrameCount(|b|, channels))
  {
    FrameCountGrows(|a|, |b|, channels);
    var n := FrameCount(|a|, channels);
    FramesExtend(a, b, channels, n);
    FramesPrefix(b, channels, n, FrameCount(|b|, channels));
  }

  lemma SliceKept(wav: seq<Byte>, p: Plan, lo: nat, hi: nat)
    requires 12 + 8 <= p.data.body && lo <= hi <= DataEnd(p) <= |wav|
    requires hi <= 4 || (8 <= lo && (hi <= p.data.body - 4 || p.data.body <= lo))
    ensures PaddedBy(wav, p)[lo..hi] == wav[lo..hi]
  {
    hide PaddedBy;
    var a, b := PaddedBy(wav, p)[lo..hi], wav[lo..hi];
    forall k | 0 <= k < hi - lo
      ensures a[k] == b[k]
    {
      PaddedBytes(wav, p, lo + k);
    }
  }

  lemma HeaderKept(wav: seq<Byte>, p: Plan)
    requires 24 <= p.data.body - 4 && DataEnd(p) <= |wav| && |wav| >= 44
    ensures var out := PaddedBy(wav, p);
            && out[0..4] == wav[0..4] && out[8..12] == wav[8..12] && out[12..16] == wav[12..16]
            && Get16(out, 22) == Get16(wav, 22)
  {
    hide PaddedBy;
    SliceKept(wav, p, 0, 4);
    SliceKept(wav, p, 8, 12);
    SliceKept(wav, p, 12, 16);
    PaddedBytes(wav, p, 22);
    PaddedBytes(wav, p, 23);
  }

  /** The decoder's demands, given where the data is. */
  lemma DecodesWhen(w: seq<Byte>, data: Chunk)
    requires |w| >= 44 ==> DataChunk(w, 12) == Some(data)
    ensures Decode(w).Ok? <==>
              |w| >= 44 && w[0..4] == RIFF && w[8..12] == WAVE && w[12..16] == FMT
              && Get16(w, 34) == 16 && Get16(w, 22) >= 1 && data.body + data.size <= |w|
    ensures Decode(w).Ok? ==>
              var pcm, channels := w[data.body..data.body + data.size], Get16(w, 22);
              Decode(w).value.samples == Frames(pcm, channels, FrameCount(|pcm|, channels))
  {
    hide Get16, Get32, DataChunk, Frames, FrameCount;
  }

  /** The first chunk of a file its decoder accepts is the format, so its data comes later. */
  lemma DataAfterFmt(wav: seq<Byte>)
    requires Decode(wav).Ok?
    ensures DataChunk(wav, 12).Some? && DataChunk(wav, 12).value.body >= 28
  {
    var c := ChunkAt(wav, 12);
    assert c.id == FMT && FMT[0] != DATA[0];
    DataWithin(wav, Past(c));
  }

  /**
   Where padding changes a file the decoder reads, the decoder reads the result exactly when
   its header is still readable, and then the original samples come first.
   */
  lemma PaddedDecodesExactly(wav: seq<Byte>)
    requires PlanOf(wav).Some? && NewSize(PlanOf(wav).value) < U32 && Decode(wav).Ok?
    ensures Decode(Padded(wav)).Ok? <==> StillReadable(wav, PlanOf(wav).value)
    ensures Decode(Padded(wav)).Ok? ==> Decode(wav).value.samples <= Decode(Padded(wav)).value.samples
  {
    hide PlanOf, Padded, Decode, DataChunk, Get16, Get32, Put32, Frames, FrameCount, PadBytes, NewSize, PaddedBy,
      StillReadable, Walk;
    var p, out := PlanOf(wav).value, Padded(wav);
    PlanFits(wav);
    DataAfterFmt(wav);
    DataIsEven(wav, 12);
    DecodesWhen(wav, p.data);
    PaddingKeepsChunks(wav);
    HeaderKept(wav, p);
    DecodesWhen(out, Chunk(DATA, p.data.body, NewSize(p)));
    if |out| >= 44 {
      BitsField(wav, p);
      PaddedSamples(wav, p, Get16(wav, 22));
    } else {
      ShortIsUnreadable(wav, p);
    }
  }

  lemma PlanFits(wav: seq<Byte>)
    requires PlanOf(wav).Some?
    ensures var p := PlanOf(wav).value;
            && DataChunk(wav, 12) == Some(p.data) && DataEnd(p) <= |wav|
            && p.data.body >= 20 && Padded(wav) == PaddedBy(wav, p)
  {
    hide DataChunk, RateOver, Walk, PaddedBy;
    DataWithin(wav, 12);
  }

  lemma PaddedSamples(wav: seq<Byte>, p: Plan, channels: nat)
    requires 12 + 8 <= p.data.body && DataEnd(p) <= |wav| && channels > 0
    ensures var a := wav[p.data.body..DataEnd(p)];
            var b := PaddedBy(wav, p)[p.data.body..p.data.body + NewSize(p)];
            Frames(a, channels, FrameCount(|a|, channels)) <= Frames(b, channels, FrameCount(|b|, channels))
  {
    hide PaddedBy, Frames, FrameCount;
    var out := PaddedBy(wav, p);
    SliceKept(wav, p, p.data.body, DataEnd(p));
    var a, b := wav[p.data.body..DataEnd(p)], out[p.data.body..p.data.body + NewSize(p)];
    assert b[..|a|] == out[p.data.body..DataEnd(p)];
    SamplesKept(a, b, channels);
  }

  lemma ShortIsUnreadable(wav: seq<Byte>, p: Plan)
    requires DataEnd(p) + PadBytes(p) < 44
    ensures !StillReadable(wav, p)
  {
  }

  /** A format chunk with its sixteen bytes is enough: the padded file always decodes. */
  lemma OrdinaryFilesDecode(wav: seq<Byte>)
    requires PlanOf(wav).Some? && NewSize(PlanOf(wav).value) < U32 && Decode(wav).Ok?
    requires ChunkAt(wav, 12).size >= 16
    ensures Decode(Padded(wav)).Ok?
    ensures Decode(wav).value.samples <= Decode(Padded(wav)).value.samples
  {
    PaddedDecodesExactly(wav);
    var c := ChunkAt(wav, 12);
    assert c.id == FMT && FMT[0] != DATA[0];
    DataWithin(wav, Past(c));
    hide Get16, Get32, RateOver, Walk, Padded, Frames;
  }

  // ---- the rate the seconds are counted in -----------------------------------------------------------

  /** A format chunk whose sixteen bytes the file holds. */
  predicate IsFormat(wav: seq<Byte>, c: Chunk) { c.id == FMT && c.body + 16 <= |wav| }

  /** The rate is the byte rate, the format chunk's bytes 8 to 11, of the last format chunk before the data. */
  lemma {:induction false} RateIsByteRate(wav: seq<Byte>, visited: seq<Chunk>, k: nat, r: nat)
    requires k < |visited| && IsFormat(wav, visited[k]) && r < U32
    requires wav[visited[k].body + 8..visited[k].body + 12] == Put32(r)
    requires forall j :: k < j < |visited| ==> !IsFormat(wav, visited[j])
    ensures RateOver(wav, visited) == r
    decreases |visited|
  {
    hide Put32, Get32;
    if k == |visited| - 1 {
      Get32Put32(r, wav, visited[k].body + 8);
    } else {
      RateIsByteRate(wav, visited[..|visited| - 1], k, r);
    }
  }

  lemma {:induction false} NoFormatNoRate(wav: seq<Byte>, visited: seq<Chunk>)
    requires forall j :: 0 <= j < |visited| ==> !IsFormat(wav, visited[j])
    ensures RateOver(wav, visited) == 0
    decreases |visited|
  {
    if visited != [] {
      NoFormatNoRate(wav, visited[..|visited| - 1]);
    }
  }

  /** Without a format chunk to take a rate from, the file is left alone. */
  lemma NoFormatNoPadding(wav: seq<Byte>)
    requires forall j :: 0 <= j < |Walk(wav, 12, NotData)| ==> !IsFormat(wav, Walk(wav, 12, NotData)[j])
    ensures Padded(wav) == wav
  {
    NoFormatNoRate(wav, Walk(wav, 12, NotData));
  }

  /** A file is padded in seconds of the byte rate its last format chunk before the data states. */
  lemma PlanCountsInByteRate(wav: seq<Byte>, k: nat, r: nat)
    requires |wav| >= 12 && wav[0..4] == RIFF && wav[8..12] == WAVE && r < U32
    requires DataChunk(wav, 12).Some? && DataChunk(wav, 12).value.body + DataChunk(wav, 12).value.size <= |wav|
    requires var visited := Walk(wav, 12, NotData);
             && k < |visited| && IsFormat(wav, visited[k])
             && wav[visited[k].body + 8..visited[k].body + 12] == Put32(r)
             && forall j :: k < j < |visited| ==> !IsFormat(wav, visited[j])
    ensures PlanOf(wav) == if r == 0 then None else Some(Plan(r, DataChunk(wav, 12).value))
  {
    RateIsByteRate(wav, Walk(wav, 12, NotData), k, r);
  }

  /** A wrapped clip is padded by a second of its own rate, and to no less than four. */
  lemma WrappedClipPadded(mulaw: seq<Byte>, rate: nat)
    requires 0 < rate && 2 * rate < U32 && 2 * |mulaw| < U32
    ensures var w := WavOf(mulaw, rate);
            && PlanOf(w) == Some(Plan(2 * rate, Chunk(DATA, HEADER_SIZE, 2 * |mulaw|)))
            && |Padded(w)| == HEADER_SIZE + Max(2 * |mulaw| + 2 * rate, 4 * (2 * rate))
  {
    WrappedChunks(mulaw, rate);
    WrappedRate(mulaw, rate);
    var w := WavOf(mulaw, rate);
    assert FMT[0] != DATA[0];
    PlanCountsInByteRate(w, 0, 2 * rate);
    hide WavOf, Walk, DataChunk, PlanOf, PaddedBy;
  }

  lemma WrappedRate(mulaw: seq<Byte>, rate: nat)
    requires rate < U32
    ensures WavOf(mulaw, rate)[28..32] == Put32(2 * rate)
  {
    var w, h, f := WavOf(mulaw, rate), Header(rate, 2 * |mulaw|), FmtPart(rate);
    hide Put16, Put32, PcmBytes;
    assert f[16..20] == Put32(rate * 2);
    assert h[28..32] == f[16..20];
    assert w[28..32] == h[28..32];
  }

  lemma WrappedChunks(mulaw: seq<Byte>, rate: nat)
    requires rate < U32 && 2 * |mulaw| < U32
    ensures var w, c := WavOf(mulaw, rate), Chunk(DATA, HEADER_SIZE, 2 * |mulaw|);
            && w[0..4] == RIFF && w[8..12] == WAVE
            && DataChunk(w, 12) == Some(c) && Walk(w, 12, NotData) == [Chunk(FMT, 20, 16), c]
  {
    var w, c := WavOf(mulaw, rate), Chunk(DATA, HEADER_SIZE, 2 * |mulaw|);
    WrappedFields(mulaw, rate);
    hide WavOf, ChunkAt, Get16, Get32;
    assert FMT[0] != DATA[0];
    assert Walk(w, 36, NotData) == [c];
    assert DataChunk(w, 36) == Some(c);
  }

  // ---- a file padding makes unreadable ---------------------------------------------------------------

  /** Two format chunks, the second empty, put the data's size field over the bits per sample. */
  const OVERLAPPING: seq<Byte> :=
    RIFF + [46, 0, 0, 0] + WAVE
    + FMT + [2, 0, 0, 0] + [0, 0]
    + FMT + [0, 0, 0, 0]
    + DATA + [16, 0, 0, 0]
    + [1, 0, 0, 0] + [0, 0, 0, 0, 0, 0, 0, 0, 0, 0, 0, 0]

  lemma OverlappingFields()
    ensures var w := OVERLAPPING;
            && |w| == 54 && w[0..4] == RIFF && w[8..12] == WAVE && w[12..16] == FMT
            && Get16(w, 34) == 16 && Get16(w, 22) >= 1 && Get32(w, 38) == 1
            && ChunkAt(w, 12) == Chunk(FMT, 20, 2)
            && ChunkAt(w, 22) == Chunk(FMT, 30, 0)
            && ChunkAt(w, 30) == Chunk(DATA, 38, 16)
  {
    var w := OVERLAPPING;
    assert w[12..16] == FMT && w[22..26] == FMT && w[30..34] == DATA;
  }

  lemma PaddingCanMakeUnreadable()
    ensures Decode(OVERLAPPING).Ok? && !Decode(Padded(OVERLAPPING)).Ok?
  {
    OverlappingFields();
    var w, a, b, c := OVERLAPPING, Chunk(FMT, 20, 2), Chunk(FMT, 30, 0), Chunk(DATA, 38, 16);
    hide OVERLAPPING, Get16, Get32, Padded;
    assert FMT[0] != DATA[0];
    assert DataChunk(w, 30) == Some(c) && DataChunk(w, 22) == Some(c) && DataChunk(w, 12) == Some(c);
    assert Walk(w, 30, NotData) == [c];
    assert Walk(w, 22, NotData) == [b, c];
    assert Walk(w, 12, NotData) == [a, b, c];
    assert [a, b, c][..2] == [a, b];
    assert RateOver(w, [a, b, c]) == RateOver(w, [a, b]) == 1;
    DecodesWhen(w, c);
    hide Walk, DataChunk, RateOver, Decode;
    PaddedDecodesExactly(w);
  }
}
