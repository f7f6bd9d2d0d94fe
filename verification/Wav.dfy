/**
 The WAV container both ways: the writer that wraps decoded mu-law in a 44-byte header, the
 chunk walk, the 16-bit decoder with its error branches, and the mu-law framing behind it.
 */
module Wav {
  import opened Common
  import opened MuLaw
  import opened Telephony
  import CyclicClip

  const HEADER_SIZE := 44
  const RIFF: seq<Byte> := [0x52, 0x49, 0x46, 0x46]
  const WAVE: seq<Byte> := [0x57, 0x41, 0x56, 0x45]
  const FMT: seq<Byte> := [0x66, 0x6D, 0x74, 0x20]
  const DATA: seq<Byte> := [0x64, 0x61, 0x74, 0x61]
  const U32 := 0x1_0000_0000

  // ---- little-endian fields ----------------------------------------------------------------

  function Put16(v: nat): (b: seq<Byte>)
    ensures |b| == 2
  {
    [v % 256, v / 256 % 256]
  }

  /** The low 32 bits of v, as the conversion to uint32 leaves them. */
  function Put32(v: nat): (b: seq<Byte>)
    ensures |b| == 4
  {
    [v % 256, v / 256 % 256, v / 65536 % 256, v / 16777216 % 256]
  }

  function Get16(s: seq<Byte>, i: nat): (v: nat)
    requires i + 2 <= |s|
    ensures v < 65536
  {
    s[i] as int + 256 * s[i + 1] as int
  }

  function Get32(s: seq<Byte>, i: nat): (v: nat)
    requires i + 4 <= |s|
    ensures v < U32
  {
    s[i] as int + 256 * s[i + 1] as int + 65536 * s[i + 2] as int + 16777216 * s[i + 3] as int
  }

  lemma Get16Put16(v: nat, s: seq<Byte>, i: nat)
    requires v < 65536 && i + 2 <= |s| && s[i..i + 2] == Put16(v)
    ensures Get16(s, i) == v
  {
    assert s[i] == s[i..i + 2][0] && s[i + 1] == s[i..i + 2][1];
  }

  lemma Digits(v: nat)
    requires v < U32
    ensures v == v % 256 + 256 * (v / 256 % 256) + 65536 * (v / 65536 % 256) + 16777216 * (v / 16777216 % 256)
  {
    var a, b, c := v / 256, v / 65536, v / 16777216;
    assert v == 256 * a + v % 256;
    assert b == a / 256 && a == 256 * b + a % 256;
    assert c == b / 256 && b == 256 * c + b % 256;
    assert c % 256 == c;
  }

  lemma Get32Put32(v: nat, s: seq<Byte>, i: nat)
    requires v < U32 && i + 4 <= |s| && s[i..i + 4] == Put32(v)
    ensures Get32(s, i) == v
  {
    assert s[i] == s[i..i + 4][0] && s[i + 1] == s[i..i + 4][1];
    assert s[i + 2] == s[i..i + 4][2] && s[i + 3] == s[i..i + 4][3];
    Digits(v);
  }

  function ToUnsigned(s: Sample): nat { if s < 0 then s + 65536 else s }

  function ToSigned(u: nat): Sample
    requires u < 65536
  {
    if u >= 32768 then u - 65536 else u
  }

  // ---- the writer ------------------------------------------------------------------------------

  function RiffPart(pcmLen: nat): (h: seq<Byte>)
    ensures |h| == 12
  {
    RIFF + Put32(36 + pcmLen) + WAVE
  }

  function FmtPart(rate: nat): (h: seq<Byte>)
    ensures |h| == 24
  {
    FMT + Put32(16) + Put16(1) + Put16(1) + Put32(rate) + Put32(rate * 2) + Put16(2) + Put16(16)
  }

  function DataPart(pcmLen: nat): (h: seq<Byte>)
    ensures |h| == 8
  {
    DATA + Put32(pcmLen)
  }

  function Header(rate: nat, pcmLen: nat): (h: seq<Byte>)
    ensures |h| == HEADER_SIZE
  {
    RiffPart(pcmLen) + FmtPart(rate) + DataPart(pcmLen)
  }

  /** Each code's linear value, little-endian. */
  function PcmBytes(mulaw: seq<Byte>): (p: seq<Byte>)
    ensures |p| == 2 * |mulaw|
  {
    if mulaw == [] then []
    else PcmBytes(mulaw[..|mulaw| - 1]) + Put16(ToUnsigned(MuLawToLinear(mulaw[|mulaw| - 1])))
  }

  function WavOf(mulaw: seq<Byte>, rate: nat): (w: seq<Byte>)
    ensures |w| == HEADER_SIZE + 2 * |mulaw|
  {
    Header(rate, 2 * |mulaw|) + PcmBytes(mulaw)
  }

  method CopyInto(a: array<Byte>, off: nat, bytes: seq<Byte>)
    requires off + |bytes| <= a.Length
    modifies a
    ensures a[..off + |bytes|] == old(a[..off]) + bytes
    ensures a[off + |bytes|..] == old(a[off + |bytes|..])
  {
    for k := 0 to |bytes|
      invariant a[..off] == old(a[..off])
      invariant a[off..off + k] == bytes[..k]
      invariant a[off + k..] == old(a[off + k..])
    {
      ghost var before, rest := a[off..off + k], a[off + k..];
      a[off + k] := bytes[k];
      assert a[off..off + k] == before;
      assert a[off + k + 1..] == rest[1..];
      assert a[off..off + k + 1] == before + [bytes[k]];
    }
    assert a[..off + |bytes|] == a[..off] + a[off..off + |bytes|];
  }

  method WriteRiff(wav: array<Byte>, pcmLen: nat)
    requires wav.Length >= HEADER_SIZE
    modifies wav
    ensures wav[..12] == RiffPart(pcmLen)
  {
    hide Put32;
    CopyInto(wav, 0, RIFF);
    CopyInto(wav, 4, Put32(36 + pcmLen));
    CopyInto(wav, 8, WAVE);
  }

  method WriteFmt(wav: array<Byte>, rate: nat)
    requires wav.Length >= HEADER_SIZE
    modifies wav
    ensures wav[..36] == old(wav[..12]) + FmtPart(rate)
  {
    hide Put16, Put32;
    ghost var before := wav[..12];
    CopyInto(wav, 12, FMT);
    CopyInto(wav, 16, Put32(16));
    CopyInto(wav, 20, Put16(1));
    CopyInto(wav, 22, Put16(1));
    assert wav[..24] == before + (FMT + Put32(16) + Put16(1) + Put16(1));
    CopyInto(wav, 24, Put32(rate));
    CopyInto(wav, 28, Put32(rate * 2));
    CopyInto(wav, 32, Put16(2));
    CopyInto(wav, 34, Put16(16));
  }

  /** The header, field by field at its own offset. */
  method WriteHeader(wav: array<Byte>, rate: nat, pcmLen: nat)
    requires wav.Length >= HEADER_SIZE
    modifies wav
    ensures wav[..HEADER_SIZE] == Header(rate, pcmLen)
  {
    hide Put16, Put32;
    WriteRiff(wav, pcmLen);
    WriteFmt(wav, rate);
    CopyInto(wav, 36, DATA);
    CopyInto(wav, 40, Put32(pcmLen));
  }

  method MulawToWAV(mulaw: seq<Byte>, rate: nat) returns (wav: array<Byte>)
    ensures fresh(wav) && wav[..] == WavOf(mulaw, rate)
  {
    hide Header, Put16, RiffPart, FmtPart, DataPart;
    var pcmLen := 2 * |mulaw|;
    wav := new Byte[HEADER_SIZE + pcmLen];
    WriteHeader(wav, rate, pcmLen);
    for i := 0 to |mulaw|
      invariant wav[..HEADER_SIZE + 2 * i] == Header(rate, pcmLen) + PcmBytes(mulaw[..i])
    {
      CopyInto(wav, HEADER_SIZE + 2 * i, Put16(ToUnsigned(MuLawToLinear(mulaw[i]))));
      assert mulaw[..i + 1][..i] == mulaw[..i];
      Joined(Header(rate, pcmLen), PcmBytes(mulaw[..i]), Put16(ToUnsigned(MuLawToLinear(mulaw[i]))));
    }
    assert mulaw[..|mulaw|] == mulaw;
  }

  // ---- the chunk walk --------------------------------------------------------------------------

  datatype Chunk = Chunk(id: seq<Byte>, body: nat, size: nat)

  function ChunkAt(wav: seq<Byte>, i: nat): Chunk
    requires i + 8 <= |wav|
  {
    Chunk(wav[i..i + 4], i + 8, Get32(wav, i + 4))
  }

  /** Where the header after a chunk starts: bodies are padded to an even length. */
  function Past(c: Chunk): nat { c.body + c.size + c.size % 2 }

  /** The chunks from offset i through the first one the visitor stops at. */
  function Walk(wav: seq<Byte>, i: nat, keep: Chunk -> bool): seq<Chunk>
    decreases |wav| - i
  {
    if i + 8 > |wav| then []
    else
      var c := ChunkAt(wav, i);
      if keep(c) then [c] + Walk(wav, Past(c), keep) else [c]
  }

  method WalkWAVChunks(wav: seq<Byte>, keep: Chunk -> bool) returns (visited: seq<Chunk>)
    ensures visited == Walk(wav, 12, keep)
  {
    hide Walk, Get32;
    visited := [];
    var i := 12;
    while i + 8 <= |wav|
      invariant i >= 0
      invariant visited + Walk(wav, i, keep) == Walk(wav, 12, keep)
      decreases |wav| - i
    {
      WalkOnce(wav, i, keep);
      var c := Chunk(wav[i..i + 4], i + 8, Get32(wav, i + 4));
      if !keep(c) { return visited + [c]; }
      visited := visited + [c];
      i := c.body + c.size + c.size % 2;
    }
    WalkNothing(wav, i, keep);
  }

  function NotData(c: Chunk): bool { c.id != DATA }

  /** The data chunk the walk ends at, if it finds one. */
  function DataChunk(wav: seq<Byte>, i: nat): Option<Chunk>
    decreases |wav| - i
  {
    if i + 8 > |wav| then None
    else
      var c := ChunkAt(wav, i);
      if c.id == DATA then Some(c) else DataChunk(wav, Past(c))
  }

  lemma {:induction false} WalkEndsAtData(wav: seq<Byte>, i: nat)
    ensures var w := Walk(wav, i, NotData);
            DataChunk(wav, i) ==
            if w != [] && w[|w| - 1].id == DATA then Some(w[|w| - 1]) else None
    decreases |wav| - i
  {
    if i + 8 <= |wav| {
      var c := ChunkAt(wav, i);
      if c.id != DATA {
        WalkEndsAtData(wav, Past(c));
      }
    }
  }

  /** A chunk as a writer lays it out: its id, its length, its bytes, and a pad byte after an odd length. */
  datatype Piece = Piece(id: seq<Byte>, bytes: seq<Byte>)

  predicate Writable(p: Piece) { |p.id| == 4 && |p.bytes| < U32 }

  function PieceBytes(p: Piece): seq<Byte> {
    p.id + Put32(|p.bytes|) + p.bytes + if |p.bytes| % 2 == 1 then [0] else []
  }

  function Laid(pieces: seq<Piece>): seq<Byte> {
    if pieces == [] then [] else PieceBytes(pieces[0]) + Laid(pieces[1..])
  }

  /** The chunks a reader should list from offset i, through the first it is not to pass. */
  function Listed(pieces: seq<Piece>, i: nat, keep: Chunk -> bool): seq<Chunk> {
    if pieces == [] then []
    else
      var c := Chunk(pieces[0].id, i + 8, |pieces[0].bytes|);
      if keep(c) then [c] + Listed(pieces[1..], i + |PieceBytes(pieces[0])|, keep) else [c]
  }

  /** Whatever chunks a writer lays out, of odd or even length, the walk lists them in order. */
  lemma {:induction false} WalkReadsPieces(pre: seq<Byte>, pieces: seq<Piece>, keep: Chunk -> bool)
    requires forall p :: p in pieces ==> Writable(p)
    ensures Walk(pre + Laid(pieces), |pre|, keep) == Listed(pieces, |pre|, keep)
    decreases |pieces|
  {
    hide Walk, ChunkAt, Past, PieceBytes, Get32;
    if pieces == [] {
      WalkNothing(pre + [], |pre|, keep);
    } else {
      var p := pieces[0];
      var first, rest := PieceBytes(p), Laid(pieces[1..]);
      var w := pre + Laid(pieces);
      assert p in pieces && w == pre + (first + rest);
      FirstPiece(pre, p, rest);
      WalkOnce(w, |pre|, keep);
      WalkReadsPieces(pre + first, pieces[1..], keep);
      Joined(pre, first, rest);
    }
  }

  lemma WalkNothing(wav: seq<Byte>, i: nat, keep: Chunk -> bool)
    requires i + 8 > |wav|
    ensures Walk(wav, i, keep) == []
  {
  }

  lemma WalkOnce(wav: seq<Byte>, i: nat, keep: Chunk -> bool)
    requires i + 8 <= |wav|
    ensures var c := ChunkAt(wav, i);
            Walk(wav, i, keep) == if keep(c) then [c] + Walk(wav, Past(c), keep) else [c]
  {
  }

  lemma FirstPiece(pre: seq<Byte>, p: Piece, rest: seq<Byte>)
    requires Writable(p)
    ensures var w := pre + (PieceBytes(p) + rest);
            && |pre| + 8 <= |w| && ChunkAt(w, |pre|) == Chunk(p.id, |pre| + 8, |p.bytes|)
            && Past(ChunkAt(w, |pre|)) == |pre| + |PieceBytes(p)|
  {
    hide Put32, Get32;
    var b := PieceBytes(p);
    var w := pre + (b + rest);
    assert b[0..4] == p.id && b[4..8] == Put32(|p.bytes|);
    assert w[|pre|..|pre| + 4] == b[0..4];
    assert w[|pre| + 4..|pre| + 8] == b[4..8];
    Get32Put32(|p.bytes|, w, |pre| + 4);
  }

  // ---- the decoder -----------------------------------------------------------------------------

  datatype DecodeError = TooShort | NotWave | NoFmt | Not16Bit | NoChannels | NoData | Truncated

  datatype Pcm = Pcm(samples: seq<Sample>, rate: nat)

  /** Integer division that truncates toward zero. */
  function TruncDiv(a: int, b: nat): int
    requires b > 0
  {
    if a < 0 then -((-a) / b) else a / b
  }

  function SampleAt(data: seq<Byte>, off: nat): Sample
    requires off + 2 <= |data|
  {
    ToSigned(Get16(data, off))
  }

  /** The sum of the first c channels of the frame at off. */
  function ChannelSum(data: seq<Byte>, off: nat, c: nat): int
    requires off + 2 * c <= |data|
  {
    if c == 0 then 0 else ChannelSum(data, off, c - 1) + SampleAt(data, off + 2 * (c - 1))
  }

  lemma {:induction false} ChannelSumBounded(data: seq<Byte>, off: nat, c: nat)
    requires off + 2 * c <= |data|
    ensures -32768 * c <= ChannelSum(data, off, c) <= 32767 * c
    decreases c
  {
    if c > 0 {
      ChannelSumBounded(data, off, c - 1);
    }
  }

  lemma TruncDivBounded(a: int, b: nat)
    requires b > 0 && -32768 * b <= a <= 32767 * b
    ensures -32768 <= TruncDiv(a, b) <= 32767
  {
    var m: nat := if a < 0 then -a else a;
    var q := m / b;
    assert m == q * b + m % b;
    var top := if a < 0 then 32768 else 32767;
    assert (q - top) * b == q * b - top * b;
    if q > top {
      CyclicClip.MulAtLeast(q - top, b);
    }
  }

  /** One output sample: the frame's channels averaged, truncating toward zero. */
  function Mixed(data: seq<Byte>, off: nat, channels: nat): Sample
    requires channels > 0 && off + 2 * channels <= |data|
  {
    ChannelSumBounded(data, off, channels);
    TruncDivBounded(ChannelSum(data, off, channels), channels);
    TruncDiv(ChannelSum(data, off, channels), channels)
  }

  /** The quotient, rounded toward zero. */
  predicate Truncates(q: int, v: int, n: nat) {
    Abs(q) * n <= Abs(v) < (Abs(q) + 1) * n && (v >= 0 ==> q >= 0) && (v <= 0 ==> q <= 0)
  }

  lemma TruncDivTruncates(v: int, n: nat)
    requires n > 0
    ensures Truncates(TruncDiv(v, n), v, n)
  {
    var m := Abs(v);
    var q := m / n;
    assert m == q * n + m % n;
    assert (q + 1) * n == q * n + n;
  }

  function Sum(s: seq<Sample>): int { if s == [] then 0 else s[0] + Sum(s[1..]) }

  lemma {:induction false} SumMore(s: seq<Sample>, x: Sample)
    ensures Sum(s + [x]) == Sum(s) + x
    decreases |s|
  {
    if s != [] {
      assert (s + [x])[1..] == s[1..] + [x];
      SumMore(s[1..], x);
    }
  }

  /** The channels of the frame at off. */
  function Channels(data: seq<Byte>, off: nat, c: nat): (s: seq<Sample>)
    requires off + 2 * c <= |data|
    ensures |s| == c
  {
    seq(c, j requires 0 <= j < c => SampleAt(data, off + 2 * j))
  }

  lemma {:induction false} ChannelSumIsSum(data: seq<Byte>, off: nat, c: nat)
    requires off + 2 * c <= |data|
    ensures ChannelSum(data, off, c) == Sum(Channels(data, off, c))
    decreases c
  {
    if c > 0 {
      ChannelSumIsSum(data, off, c - 1);
      SumMore(Channels(data, off, c - 1), SampleAt(data, off + 2 * (c - 1)));
      assert Channels(data, off, c) == Channels(data, off, c - 1) + [SampleAt(data, off + 2 * (c - 1))];
    }
  }

  /** Every decoded sample is the average of its frame's channels, rounded toward zero. */
  lemma {:induction false} FramesAverage(data: seq<Byte>, channels: nat, n: nat, i: nat)
    requires channels > 0 && i < n <= FrameCount(|data|, channels)
    ensures i * (2 * channels) + 2 * channels <= |data|
    ensures Truncates(Frames(data, channels, n)[i], Sum(Channels(data, i * (2 * channels), channels)), channels)
    decreases n
  {
    FrameFits(|data|, channels, i);
    if i < n - 1 {
      FramesAverage(data, channels, n - 1, i);
    } else {
      var off := i * (2 * channels);
      ChannelSumIsSum(data, off, channels);
      TruncDivTruncates(ChannelSum(data, off, channels), channels);
    }
  }

  function FrameCount(bytes: nat, channels: nat): nat
    requires channels > 0
  {
    bytes / 2 / channels
  }

  lemma FrameFits(bytes: nat, channels: nat, i: nat)
    requires channels > 0 && i < FrameCount(bytes, channels)
    ensures i * (2 * channels) + 2 * channels <= bytes
  {
    var half, n := bytes / 2, FrameCount(bytes, channels);
    assert half == n * channels + half % channels;
    CyclicClip.MulAtLeast(n - i, channels);
    assert (n - i) * channels == n * channels - i * channels;
    assert i * (2 * channels) == 2 * (i * channels);
  }

  function Frames(data: seq<Byte>, channels: nat, n: nat): (s: seq<Sample>)
    requires channels > 0 && n <= FrameCount(|data|, channels)
    ensures |s| == n
  {
    if n == 0 then []
    else
      FrameFits(|data|, channels, n - 1);
      Frames(data, channels, n - 1) + [Mixed(data, (n - 1) * (2 * channels), channels)]
  }

  function Decode(wav: seq<Byte>): Result<Pcm, DecodeError> {
    if |wav| < 44 then Err(TooShort)
    else if wav[0..4] != RIFF || wav[8..12] != WAVE then Err(NotWave)
    else if wav[12..16] != FMT then Err(NoFmt)
    else if Get16(wav, 34) != 16 then Err(Not16Bit)
    else if Get16(wav, 22) < 1 then Err(NoChannels)
    else
      var data := DataChunk(wav, 12);
      if data.None? then Err(NoData)
      else if data.value.body + data.value.size > |wav| then Err(Truncated)
      else
        var pcm := wav[data.value.body..data.value.body + data.value.size];
        Ok(Pcm(Frames(pcm, Get16(wav, 22), FrameCount(|pcm|, Get16(wav, 22))), Get32(wav, 24)))
  }

  method MixFrame(data: seq<Byte>, off: nat, channels: nat) returns (s: Sample)
    requires channels > 0 && off + 2 * channels <= |data|
    ensures s == Mixed(data, off, channels)
  {
    var sum := 0;
    for c := 0 to channels
      invariant sum == ChannelSum(data, off, c)
    {
      sum := sum + ToSigned(Get16(data, off + c * 2));
    }
    ChannelSumBounded(data, off, channels);
    TruncDivBounded(sum, channels);
    s := TruncDiv(sum, channels);
  }

  method MixFrames(data: seq<Byte>, channels: nat) returns (samples: seq<Sample>)
    requires channels > 0
    ensures samples == Frames(data, channels, FrameCount(|data|, channels))
  {
    hide Mixed, FrameCount;
    samples := [];
    for i := 0 to FrameCount(|data|, channels)
      invariant samples == Frames(data, channels, i)
    {
      FrameFits(|data|, channels, i);
      var s := MixFrame(data, i * (2 * channels), channels);
      samples := samples + [s];
    }
  }

  method DecodeWAVToPCM16(wav: seq<Byte>) returns (r: Result<Pcm, DecodeError>)
    ensures r == Decode(wav)
  {
    hide Get16, Get32, Frames, FrameCount, Walk, DataChunk;
    if |wav| < 44 { return Err(TooShort); }
    if wav[0..4] != RIFF || wav[8..12] != WAVE { return Err(NotWave); }
    if wav[12..16] != FMT { return Err(NoFmt); }
    var sampleRate, bits, channels := Get32(wav, 24), Get16(wav, 34), Get16(wav, 22);
    if bits != 16 { return Err(Not16Bit); }
    if channels < 1 { return Err(NoChannels); }
    var visited := WalkWAVChunks(wav, NotData);
    WalkEndsAtData(wav, 12);
    if visited == [] || visited[|visited| - 1].id != DATA { return Err(NoData); }
    var data := visited[|visited| - 1];
    if data.body + data.size > |wav| { return Err(Truncated); }
    var pcm := wav[data.body..data.body + data.size];
    var samples := MixFrames(pcm, channels);
    r := Ok(Pcm(samples, sampleRate));
  }

  // ---- framing ---------------------------------------------------------------------------------

  /** Frames of 160 codes: the best code for each sample, then silence to fill the last. */
  ghost predicate Encodes(pcm: seq<Sample>, frames: seq<seq<Byte>>) {
    && |frames| == (|pcm| + FRAME_BYTES - 1) / FRAME_BYTES
    && (forall k :: 0 <= k < |frames| ==> |frames[k]| == FRAME_BYTES)
    && var flat := Flatten(frames);
       |flat| == |frames| * FRAME_BYTES
       && |pcm| <= |flat|
       && (forall i :: 0 <= i < |pcm| ==> IsBest(pcm[i], flat[i]))
       && (forall i :: |pcm| <= i < |flat| ==> flat[i] == MULAW_SILENCE)
  }

  method EncodeAll(pcm: seq<Sample>) returns (mulaw: seq<Byte>)
    ensures |mulaw| == |pcm| && forall i :: 0 <= i < |pcm| ==> IsBest(pcm[i], mulaw[i])
  {
    hide IsBest;
    mulaw := [];
    for i := 0 to |pcm|
      invariant |mulaw| == i && forall j :: 0 <= j < i ==> IsBest(pcm[j], mulaw[j])
    {
      var b := LinearToMuLaw(pcm[i]);
      mulaw := mulaw + [b];
    }
  }

  /** A run of whole frames cut at every 160th byte. */
  method CutFrames(padded: seq<Byte>, n: nat) returns (frames: seq<seq<Byte>>)
    requires |padded| == n * FRAME_BYTES
    ensures |frames| == n && Flatten(frames) == padded
    ensures forall k :: 0 <= k < n ==> |frames[k]| == FRAME_BYTES
  {
    frames := [];
    for i := 0 to n
      invariant |frames| == i && Flatten(frames) == padded[..i * FRAME_BYTES]
      invariant forall k :: 0 <= k < i ==> |frames[k]| == FRAME_BYTES
    {
      var frame := padded[i * FRAME_BYTES..(i + 1) * FRAME_BYTES];
      FlattenAppend(frames, frame);
      assert padded[..i * FRAME_BYTES] + frame == padded[..(i + 1) * FRAME_BYTES];
      frames := frames + [frame];
    }
  }

  // ---- resampling ------------------------------------------------------------------------------

  function TargetCount(n: nat, rate: nat): nat
    requires rate > 0
  {
    n * SAMPLE_RATE_HZ / rate
  }

  /** The input position of output sample i, in whole samples and 8000ths of one. */
  function Whole(i: nat, rate: nat): nat { i * rate / SAMPLE_RATE_HZ }

  function Part(i: nat, rate: nat): (r: nat)
    ensures r < SAMPLE_RATE_HZ
  {
    i * rate % SAMPLE_RATE_HZ
  }

  /** r 8000ths of the way from a to b, between the two. */
  lemma Between(a: int, b: int, r: nat)
    requires r < SAMPLE_RATE_HZ
    ensures var v := a * SAMPLE_RATE_HZ + (b - a) * r;
            Min(a, b) * SAMPLE_RATE_HZ <= v <= Max(a, b) * SAMPLE_RATE_HZ
  {
    var d, up: nat := (if b >= a then b - a else a - b), SAMPLE_RATE_HZ - r;
    assert d * r >= 0 && d * up >= 0 && d * r + d * up == d * SAMPLE_RATE_HZ;
    assert (b - a) * r == if b >= a then d * r else -(d * r);
  }

  lemma TruncWithin(v: int, lo: int, hi: int)
    requires lo * SAMPLE_RATE_HZ <= v <= hi * SAMPLE_RATE_HZ
    ensures lo <= TruncDiv(v, SAMPLE_RATE_HZ) <= hi
  {
  }

  /** The straight line between two samples, truncated toward zero. */
  function Interpolated(a: Sample, b: Sample, r: nat): (s: Sample)
    requires r < SAMPLE_RATE_HZ
    ensures Min(a, b) <= s <= Max(a, b)
  {
    Between(a, b, r);
    TruncWithin(a * SAMPLE_RATE_HZ + (b - a) * r, Min(a, b), Max(a, b));
    TruncDiv(a * SAMPLE_RATE_HZ + (b - a) * r, SAMPLE_RATE_HZ)
  }

  function ResampledAt(pcm: seq<Sample>, rate: nat, i: nat): Sample {
    var k := Whole(i, rate);
    if k + 1 < |pcm| then Interpolated(pcm[k], pcm[k + 1], Part(i, rate))
    else if k < |pcm| then pcm[k]
    else 0
  }

  function Resampled(pcm: seq<Sample>, rate: nat): (s: seq<Sample>)
    requires rate > 0
    ensures rate == SAMPLE_RATE_HZ ==> s == pcm
  {
    if rate == SAMPLE_RATE_HZ then pcm
    else seq(TargetCount(|pcm|, rate), i requires 0 <= i => ResampledAt(pcm, rate, i))
  }

  method ResampleToMono8kHz(pcm: seq<Sample>, rate: nat) returns (result: seq<Sample>)
    requires rate > 0
    ensures result == Resampled(pcm, rate)
  {
    if rate == SAMPLE_RATE_HZ { return pcm; }
    hide Interpolated, Whole, Part, TargetCount;
    result := [];
    for i := 0 to TargetCount(|pcm|, rate)
      invariant result == seq(i, j requires 0 <= j => ResampledAt(pcm, rate, j))
    {
      var k := Whole(i, rate);
      var s: Sample := 0;
      if k + 1 < |pcm| {
        s := Interpolated(pcm[k], pcm[k + 1], Part(i, rate));
      } else if k < |pcm| {
        s := pcm[k];
      }
      result := result + [s];
    }
  }

  /** Every output sample has an input under it: none is left at the zero it was made with. */
  lemma ResampleStaysInside(n: nat, rate: nat, i: nat)
    requires rate > 0 && i < TargetCount(n, rate)
    ensures Whole(i, rate) < n
  {
    var t, k := TargetCount(n, rate), Whole(i, rate);
    assert n * SAMPLE_RATE_HZ == t * rate + n * SAMPLE_RATE_HZ % rate;
    CyclicClip.MulAtLeast(t - i, rate);
    assert (t - i) * rate == t * rate - i * rate;
  }

  /** As many samples as whole 8 kHz periods fit in the input. */
  lemma ResampledLength(pcm: seq<Sample>, rate: nat, i: nat)
    requires rate > 0
    ensures i < |Resampled(pcm, rate)| <==> (i + 1) * rate <= |pcm| * SAMPLE_RATE_HZ
  {
    var v, t := |pcm| * SAMPLE_RATE_HZ, |Resampled(pcm, rate)|;
    if rate == SAMPLE_RATE_HZ {
    } else {
      assert t == v / rate && v == t * rate + v % rate;
      var a: nat := if i < t then t - i - 1 else i - t;
      assert a * rate >= 0;
      assert a * rate == if i < t then t * rate - (i + 1) * rate else (i + 1) * rate - (t * rate + rate);
    }
  }

  /** A point on the straight line between two samples, in 8000ths of a step. */
  function LineAt(a: Sample, b: Sample, into: nat): int
    requires into < SAMPLE_RATE_HZ
  {
    a * (SAMPLE_RATE_HZ - into) + b * into
  }

  /**
   Output sample i is read off the straight line through the two input samples that its
   instant, i periods of 8 kHz, falls between, rounded toward zero; on the last input
   sample it is that sample.
   */
  lemma ResampledOnTheLine(pcm: seq<Sample>, rate: nat, i: nat, k: nat, into: nat)
    requires rate > 0 && i < |Resampled(pcm, rate)| && i * rate == k * SAMPLE_RATE_HZ + into && into < SAMPLE_RATE_HZ
    ensures k < |pcm|
    ensures k + 1 < |pcm| ==> Truncates(Resampled(pcm, rate)[i], LineAt(pcm[k], pcm[k + 1], into), SAMPLE_RATE_HZ)
    ensures k + 1 == |pcm| ==> Resampled(pcm, rate)[i] == pcm[k]
  {
    hide Interpolated, Truncates, LineAt, Whole, Part, TargetCount;
    PositionIs(i, rate, k, into);
    SamePosition(i, k, into);
    ResampledFrom(pcm, rate, i);
    hide Resampled;
    if k + 1 < |pcm| {
      InterpolatedOnTheLine(pcm[k], pcm[k + 1], into);
    }
  }

  lemma ResampledFrom(pcm: seq<Sample>, rate: nat, i: nat)
    requires rate > 0 && i < |Resampled(pcm, rate)|
    ensures rate == SAMPLE_RATE_HZ ==> Resampled(pcm, rate)[i] == pcm[i]
    ensures rate != SAMPLE_RATE_HZ ==> Resampled(pcm, rate)[i] == ResampledAt(pcm, rate, i)
    ensures rate == SAMPLE_RATE_HZ ==> i < |pcm|
    ensures rate != SAMPLE_RATE_HZ ==> Whole(i, rate) < |pcm|
  {
    hide Interpolated, Whole, Part, TargetCount;
    if rate != SAMPLE_RATE_HZ {
      ResampleStaysInside(|pcm|, rate, i);
    }
  }

  lemma PositionIs(i: nat, rate: nat, k: nat, into: nat)
    requires i * rate == k * SAMPLE_RATE_HZ + into && into < SAMPLE_RATE_HZ
    ensures Whole(i, rate) == k && Part(i, rate) == into
  {
    CyclicClip.ModUnique(i * rate, k, into, SAMPLE_RATE_HZ);
  }

  lemma SamePosition(i: nat, k: nat, into: nat)
    requires into < SAMPLE_RATE_HZ
    ensures i * SAMPLE_RATE_HZ == k * SAMPLE_RATE_HZ + into ==> i == k && into == 0
  {
  }

  lemma InterpolatedOnTheLine(a: Sample, b: Sample, into: nat)
    requires into < SAMPLE_RATE_HZ
    ensures Truncates(Interpolated(a, b, into), LineAt(a, b, into), SAMPLE_RATE_HZ)
    ensures into == 0 ==> Interpolated(a, b, into) == a
  {
    assert a * SAMPLE_RATE_HZ + (b - a) * into == LineAt(a, b, into);
    TruncDivTruncates(a * SAMPLE_RATE_HZ + (b - a) * into, SAMPLE_RATE_HZ);
    if into == 0 {
      assert (b - a) * into == 0;
      assert TruncDiv(a * SAMPLE_RATE_HZ, SAMPLE_RATE_HZ) == a;
    }
  }

  /** At a whole multiple of 8 kHz resampling takes every m-th sample as it is. */
  lemma WholeMultipleDecimates(pcm: seq<Sample>, m: nat, i: nat)
    requires m > 0 && i < |Resampled(pcm, m * SAMPLE_RATE_HZ)|
    ensures i * m < |pcm| && Resampled(pcm, m * SAMPLE_RATE_HZ)[i] == pcm[i * m]
  {
    var rate := m * SAMPLE_RATE_HZ;
    if m == 1 {
      assert rate == SAMPLE_RATE_HZ;
    } else {
      CyclicClip.MulAtLeast(m - 1, 1);
      assert rate != SAMPLE_RATE_HZ;
      ResampleStaysInside(|pcm|, rate, i);
      assert i * rate == (i * m) * SAMPLE_RATE_HZ;
      CyclicClip.ModUnique(i * rate, i * m, 0, SAMPLE_RATE_HZ);
      assert TruncDiv(pcm[i * m] as int * SAMPLE_RATE_HZ, SAMPLE_RATE_HZ) == pcm[i * m];
    }
  }

  /** A file that does not decode, or a zero sample rate, by which the resampler divides and so panics. */
  datatype EncodeError = Undecodable(error: DecodeError) | DivideByZero

  type Encoded = Result<seq<seq<Byte>>, EncodeError>

  /** What encoding a file comes to, given how it decodes. */
  ghost predicate EncodesTo(decoded: Result<Pcm, DecodeError>, r: Encoded) {
    match decoded
    case Err(e) => r == Err(Undecodable(e))
    case Ok(p) =>
      if p.rate == 0 then r == Err(DivideByZero)
      else r.Ok? && Encodes(Resampled(p.samples, p.rate), r.value)
  }

  method EncodeMuLawFrames(wav: seq<Byte>) returns (r: Encoded)
    ensures EncodesTo(Decode(wav), r)
  {
    hide Decode, IsBest, Resampled;
    var decoded := DecodeWAVToPCM16(wav);
    if decoded.Err? { return Err(Undecodable(decoded.error)); }
    var pcm := decoded.value.samples;
    if decoded.value.rate != SAMPLE_RATE_HZ {
      if decoded.value.rate == 0 { return Err(DivideByZero); }
      pcm := ResampleToMono8kHz(pcm, decoded.value.rate);
    }
    var mulaw := EncodeAll(pcm);
    var n := (|mulaw| + FRAME_BYTES - 1) / FRAME_BYTES;
    if n == 0 {
      return Ok([]);
    }
    var padded := mulaw + seq(n * FRAME_BYTES - |mulaw|, i => MULAW_SILENCE);
    var frames := CutFrames(padded, n);
    r := Ok(frames);
  }

  // ---- there and back ----------------------------------------------------------------------------

  function Linear(mulaw: seq<Byte>): (s: seq<Sample>)
    ensures |s| == |mulaw|
  {
    seq(|mulaw|, i requires 0 <= i < |mulaw| => MuLawToLinear(mulaw[i]))
  }

  lemma PutSample(s: Sample)
    ensures |Put16(ToUnsigned(s))| == 2 && SampleAt(Put16(ToUnsigned(s)), 0) == s
  {
  }

  lemma {:induction false} PcmBytesAt(mulaw: seq<Byte>, k: nat)
    requires k < |mulaw|
    ensures PcmBytes(mulaw)[2 * k..2 * k + 2] == Put16(ToUnsigned(MuLawToLinear(mulaw[k])))
    decreases |mulaw|
  {
    hide Put16;
    var front := mulaw[..|mulaw| - 1];
    if k < |front| {
      PcmBytesAt(front, k);
      assert PcmBytes(mulaw)[2 * k..2 * k + 2] == PcmBytes(front)[2 * k..2 * k + 2];
    }
  }

  lemma MonoSample(mulaw: seq<Byte>, k: nat)
    requires k < |mulaw|
    ensures Mixed(PcmBytes(mulaw), 2 * k, 1) == MuLawToLinear(mulaw[k])
  {
    hide MuLawToLinear, Put16, PcmBytes;
    var data := PcmBytes(mulaw);
    PcmBytesAt(mulaw, k);
    var two := data[2 * k..2 * k + 2];
    PutSample(MuLawToLinear(mulaw[k]));
    assert two[0] == data[2 * k] && two[1] == data[2 * k + 1];
    assert SampleAt(data, 2 * k) == SampleAt(two, 0);
    assert ChannelSum(data, 2 * k, 1) == ChannelSum(data, 2 * k, 0) + SampleAt(data, 2 * k);
  }

  lemma {:induction false} MonoFrames(mulaw: seq<Byte>, n: nat)
    requires n <= |mulaw|
    ensures Frames(PcmBytes(mulaw), 1, n) == Linear(mulaw)[..n]
    decreases n
  {
    hide Mixed, PcmBytes;
    if n > 0 {
      MonoFrames(mulaw, n - 1);
      MonoSample(mulaw, n - 1);
      FrameFits(|PcmBytes(mulaw)|, 1, n - 1);
    }
  }

  /** Every field of the header, read back. */
  lemma HeaderFields(rate: nat, pcmLen: nat)
    requires rate < U32 && pcmLen < U32
    ensures var h := Header(rate, pcmLen);
            && h[0..4] == RIFF && h[8..12] == WAVE && h[12..16] == FMT && h[36..40] == DATA
            && Get32(h, 16) == 16 && Get16(h, 22) == 1 && Get32(h, 24) == rate
            && Get16(h, 34) == 16 && Get32(h, 40) == pcmLen
  {
    var h, f, d := Header(rate, pcmLen), FmtPart(rate), DataPart(pcmLen);
    assert f[4..8] == Put32(16) && f[10..12] == Put16(1) && f[12..16] == Put32(rate);
    assert f[22..24] == Put16(16) && d[4..8] == Put32(pcmLen);
    assert h[16..20] == f[4..8] && h[22..24] == f[10..12] && h[24..28] == f[12..16];
    assert h[34..36] == f[22..24] && h[40..44] == d[4..8];
    hide Put16, Put32, Get16, Get32;
    Get32Put32(16, h, 16);
    Get16Put16(1, h, 22);
    Get32Put32(rate, h, 24);
    Get16Put16(16, h, 34);
    Get32Put32(pcmLen, h, 40);
  }

  lemma FieldsOfPrefix(h: seq<Byte>, w: seq<Byte>, i: nat)
    requires h <= w && i + 2 <= |h|
    ensures Get16(w, i) == Get16(h, i)
    ensures i + 4 <= |h| ==> Get32(w, i) == Get32(h, i) && w[i..i + 4] == h[i..i + 4]
  {
  }

  /** Every field of a wrapped clip, and its two chunks. */
  lemma WrappedFields(mulaw: seq<Byte>, rate: nat)
    requires rate < U32 && 2 * |mulaw| < U32
    ensures var w := WavOf(mulaw, rate);
            && w[0..4] == RIFF && w[8..12] == WAVE && w[12..16] == FMT
            && Get16(w, 22) == 1 && Get32(w, 24) == rate && Get16(w, 34) == 16
            && ChunkAt(w, 12) == Chunk(FMT, 20, 16) && ChunkAt(w, 36) == Chunk(DATA, HEADER_SIZE, 2 * |mulaw|)
  {
    hide Header, PcmBytes, Get16, Get32;
    var w, h := WavOf(mulaw, rate), Header(rate, 2 * |mulaw|);
    HeaderFields(rate, 2 * |mulaw|);
    FieldsOfPrefix(h, w, 0);
    FieldsOfPrefix(h, w, 8);
    FieldsOfPrefix(h, w, 12);
    FieldsOfPrefix(h, w, 16);
    FieldsOfPrefix(h, w, 22);
    FieldsOfPrefix(h, w, 24);
    FieldsOfPrefix(h, w, 34);
    FieldsOfPrefix(h, w, 36);
    FieldsOfPrefix(h, w, 40);
  }

  /** The header describes the file it heads: plain PCM, one channel, two bytes a frame, and its own sizes. */
  lemma HeaderDescribesFile(mulaw: seq<Byte>, rate: nat)
    requires 2 * rate < U32 && 36 + 2 * |mulaw| < U32
    ensures var w := WavOf(mulaw, rate);
            && Get32(w, 4) == |w| - 8 && Get32(w, 40) == |w| - HEADER_SIZE
            && Get16(w, 20) == 1
            && Get16(w, 32) == Get16(w, 22) * (Get16(w, 34) / 8)
            && Get32(w, 28) == Get32(w, 24) * Get16(w, 32)
  {
    var w, h, f := WavOf(mulaw, rate), Header(rate, 2 * |mulaw|), FmtPart(rate);
    HeaderFields(rate, 2 * |mulaw|);
    hide PcmBytes, Put16, Put32, Get16, Get32;
    assert f[8..10] == Put16(1) && f[16..20] == Put32(rate * 2) && f[20..22] == Put16(2);
    assert h[4..8] == Put32(36 + 2 * |mulaw|);
    assert h[20..22] == f[8..10] && h[28..32] == f[16..20] && h[32..34] == f[20..22];
    Get32Put32(36 + 2 * |mulaw|, h, 4);
    Get16Put16(1, h, 20);
    Get32Put32(rate * 2, h, 28);
    Get16Put16(2, h, 32);
    hide Header, FmtPart;
    FieldsOfPrefix(h, w, 4);
    FieldsOfPrefix(h, w, 20);
    FieldsOfPrefix(h, w, 22);
    FieldsOfPrefix(h, w, 24);
    FieldsOfPrefix(h, w, 28);
    FieldsOfPrefix(h, w, 32);
    FieldsOfPrefix(h, w, 34);
    FieldsOfPrefix(h, w, 40);
  }

  /** What the writer wraps, the decoder unwraps: the same samples at the same rate. */
  lemma DecodeInvertsWrap(mulaw: seq<Byte>, rate: nat)
    requires rate < U32 && 2 * |mulaw| < U32
    ensures Decode(WavOf(mulaw, rate)) == Ok(Pcm(Linear(mulaw), rate))
  {
    var w, n := WavOf(mulaw, rate), |mulaw|;
    WrappedFields(mulaw, rate);
    hide Header, PcmBytes, Get16, Get32, Frames, Linear, ChunkAt;
    assert FMT[0] != DATA[0];
    assert DataChunk(w, 12) == DataChunk(w, 36);
    assert DataChunk(w, 36) == Some(Chunk(DATA, 44, 2 * n));
    assert w[44..44 + 2 * n] == PcmBytes(mulaw);
    MonoFrames(mulaw, n);
    assert FrameCount(2 * n, 1) == n;
    assert Linear(mulaw)[..n] == Linear(mulaw);
  }

  /** The clip as a round trip leaves it: negative zero becomes positive, silence fills the last frame. */
  function Returned(mulaw: seq<Byte>): seq<Byte> {
    var n := (|mulaw| + FRAME_BYTES - 1) / FRAME_BYTES;
    seq(n * FRAME_BYTES, i requires 0 <= i => if i < |mulaw| then Canonical(mulaw[i]) else MULAW_SILENCE)
  }

  lemma EncodesReturned(mulaw: seq<Byte>, frames: seq<seq<Byte>>)
    requires Encodes(Linear(mulaw), frames)
    ensures Flatten(frames) == Returned(mulaw)
  {
    hide MuLawToLinear, IsBest, Flatten;
    var flat := Flatten(frames);
    forall i | 0 <= i < |mulaw|
      ensures flat[i] == Canonical(mulaw[i])
    {
      EncodeInvertsDecode(mulaw[i], flat[i]);
    }
  }

  /**
   Wrapping a clip at 8 kHz and encoding the result gives the clip back in 160-byte frames,
   0x7F apart and the last frame filled with silence; an empty clip gives no frames.
   */
  lemma RoundTrip(mulaw: seq<Byte>, r: Encoded)
    requires 36 + 2 * |mulaw| < U32
    requires EncodesTo(Decode(WavOf(mulaw, SAMPLE_RATE_HZ)), r)
    ensures r.Ok? && Flatten(r.value) == Returned(mulaw)
    ensures forall k :: 0 <= k < |r.value| ==> |r.value[k]| == FRAME_BYTES
    ensures mulaw == [] ==> r.value == []
  {
    hide Decode, WavOf, Encodes, Linear, Returned;
    DecodeInvertsWrap(mulaw, SAMPLE_RATE_HZ);
    EncodesReturned(mulaw, r.value);
    FramesOfEncoding(Linear(mulaw), r.value);
  }

  lemma FramesOfEncoding(pcm: seq<Sample>, frames: seq<seq<Byte>>)
    requires Encodes(pcm, frames)
    ensures forall k :: 0 <= k < |frames| ==> |frames[k]| == FRAME_BYTES
    ensures pcm == [] ==> frames == []
  {
  }

  /** The writer and the encoder, one after the other. */
  method WrapThenEncode(mulaw: seq<Byte>) returns (frames: seq<seq<Byte>>)
    requires 36 + 2 * |mulaw| < U32
    ensures Flatten(frames) == Returned(mulaw)
    ensures forall k :: 0 <= k < |frames| ==> |frames[k]| == FRAME_BYTES
    ensures mulaw == [] ==> frames == []
  {
    hide Encodes, Returned, Decode;
    var wav := MulawToWAV(mulaw, SAMPLE_RATE_HZ);
    var r := EncodeMuLawFrames(wav[..]);
    RoundTrip(mulaw, r);
    frames := r.value;
  }
}
