/** What the replay producer feeds: the recording cut as it is read, then silence enough to end it. */
module ReplayFeed {
  import opened Common
  import opened MuLaw
  import opened Vad
  import opened VadStream
  import CyclicClip
  import ReplayGate

  /** The byte the padding is made of, which is not what a silent line carries; see PaddingIsLoudest. */
  const REPLAY_SILENCE: Byte := 0x80
  const PADDING_MARGIN := 4
  const READ_BYTES := ReplayGate.READ_BYTES

  datatype ReadStatus = More | Eof | Failed(reason: string)

  /** One call to the reader: the bytes it gave and the error that came with them. */
  datatype Read = Read(data: seq<Byte>, status: ReadStatus)

  /** The bytes read up to and including the call that ended the stream. */
  function Recorded(calls: seq<Read>): seq<Byte> {
    if calls == [] then []
    else calls[0].data + if calls[0].status.More? then Recorded(calls[1..]) else []
  }

  function Outcome(calls: seq<Read>): ReadStatus {
    if calls == [] then More
    else if calls[0].status.More? then Outcome(calls[1..])
    else calls[0].status
  }

  lemma NothingRead()
    ensures Flatten<Byte>([]) == [] && Recorded([]) == [] && Outcome([]) == More
  {
  }

  lemma OneRead(calls: seq<Read>)
    requires calls != []
    ensures Recorded(calls) == calls[0].data + if calls[0].status.More? then Recorded(calls[1..]) else []
    ensures Outcome(calls) == if calls[0].status.More? then Outcome(calls[1..]) else calls[0].status
  {
  }

  function Datas(calls: seq<Read>): seq<seq<Byte>> {
    seq(|calls|, i requires 0 <= i < |calls| => calls[i].data)
  }

  /** The calls up to and including the first that ends the stream, or all of them if none does. */
  ghost predicate EndsAt(calls: seq<Read>, n: nat) {
    && n <= |calls|
    && (forall j :: 0 <= j < n - 1 ==> calls[j].status.More?)
    && (n < |calls| ==> n > 0 && !calls[n - 1].status.More?)
  }

  /** What counts as read is the data of those calls, the last one's included, and the outcome is that last one's. */
  lemma {:induction false} RecordedExactly(calls: seq<Read>, n: nat)
    requires EndsAt(calls, n)
    ensures Recorded(calls) == Flatten(Datas(calls[..n]))
    ensures Outcome(calls) == if n == 0 then More else calls[n - 1].status
    decreases n
  {
    if n > 0 {
      var c, rest := calls[0], calls[1..];
      assert Datas(calls[..n]) == [c.data] + Datas(rest[..n - 1]);
      FlattenHead(c.data, Datas(rest[..n - 1]));
      if c.status.More? {
        RecordedExactly(rest, n - 1);
      } else {
        assert n == 1;
        assert Datas(rest[..0]) == [];
      }
    }
  }

  /** Empty reads send nothing; a read that carries data and an error sends before it ends. */
  method FeedReplayAudio(calls: seq<Read>) returns (sent: seq<seq<Byte>>, status: ReadStatus)
    requires forall r :: r in calls ==> |r.data| <= READ_BYTES
    ensures Flatten(sent) == Recorded(calls)
    ensures forall f :: f in sent ==> 0 < |f| <= READ_BYTES
    ensures status == Outcome(calls)
  {
    hide Flatten, Recorded, Outcome;
    NothingRead();
    sent := [];
    var i := 0;
    assert calls[0..] == calls;
    while i < |calls|
      invariant 0 <= i <= |calls|
      invariant Flatten(sent) + Recorded(calls[i..]) == Recorded(calls)
      invariant forall f :: f in sent ==> 0 < |f| <= READ_BYTES
      invariant Outcome(calls[i..]) == Outcome(calls)
    {
      var r := calls[i];
      OneRead(calls[i..]);
      assert calls[i..][1..] == calls[i + 1..];
      if |r.data| > 0 {
        FlattenAppend(sent, r.data);
        Joined(Flatten(sent), r.data, if r.status.More? then Recorded(calls[i + 1..]) else []);
        sent := sent + [r.data];
      }
      if !r.status.More? {
        assert Flatten(sent) + [] == Flatten(sent);
        return sent, r.status;
      }
      i := i + 1;
    }
    assert calls[i..] == [];
    assert Flatten(sent) + [] == Flatten(sent);
    status := More;
  }

  // ---- the silence appended after the recording ------------------------------------------------

  /** No code is louder than the padding byte. */
  lemma PaddingIsLoudest(b: Byte)
    ensures MuLawToLinear(REPLAY_SILENCE) == 32124
    ensures Abs(MuLawToLinear(b)) <= MuLawToLinear(REPLAY_SILENCE)
  {
  }

  function PaddingFrames(c: VADConfig): nat
    requires Resolved(c)
  {
    EndWindows(c) + PADDING_MARGIN
  }

  function Padding(c: VADConfig): (p: seq<Byte>)
    requires Resolved(c)
    ensures |p| == PaddingFrames(c) * READ_BYTES
  {
    seq(PaddingFrames(c) * READ_BYTES, i => REPLAY_SILENCE)
  }

  method FeedSilencePadding(c: VADConfig) returns (sent: seq<seq<Byte>>)
    requires Resolved(c)
    ensures Flatten(sent) == Padding(c)
    ensures |sent| == PaddingFrames(c) && forall f :: f in sent ==> |f| == READ_BYTES
  {
    var frame: seq<Byte> := seq(READ_BYTES, i => REPLAY_SILENCE);
    sent := [];
    for i := 0 to PaddingFrames(c)
      invariant |sent| == i && forall f :: f in sent ==> |f| == READ_BYTES
      invariant Flatten(sent) == seq(i * READ_BYTES, k => REPLAY_SILENCE)
    {
      FlattenAppend(sent, frame);
      sent := sent + [frame];
    }
  }

  // ---- the padding does end the last utterance -------------------------------------------------

  lemma {:induction false} WindowAt<T>(size: nat, s: seq<T>, k: nat)
    requires size > 0 && (k + 1) * size <= |s|
    ensures k < |Windows(size, s)| && k * size >= 0
    ensures Windows(size, s)[k] == s[k * size..k * size + size]
    decreases k
  {
    assert (k + 1) * size == k * size + size;
    if k > 0 {
      assert k * size == (k - 1) * size + size;
      WindowAt(size, s[size..], k - 1);
      assert s[size..][(k - 1) * size..(k - 1) * size + size] == s[k * size..k * size + size];
    }
  }

  lemma {:induction false} MachineTracks(c: VADConfig, m: Machine, h: seq<Class>, probs: seq<real>)
    requires Resolved(c) && Tracks(c, m, h)
    ensures Tracks(c, MachineAfter(c, m, probs), h + Classes(c, probs))
    decreases |probs|
  {
    hide Step, Tracks, MatchesHistory, Classify;
    if probs == [] {
      assert h + Classes(c, probs) == h;
    } else {
      StepTracks(c, m, h, probs[0]);
      var x := Classify(c, probs[0]);
      MachineTracks(c, Step(c, m, probs[0]).0, h + [x], probs[1..]);
      assert h + [x] + Classes(c, probs[1..]) == h + Classes(c, probs);
    }
  }

  lemma {:induction false} SilenceRuns(h: seq<Class>, k: nat)
    requires k <= |h| && forall i :: |h| - k <= i < |h| ==> h[i] == Silent
    ensures SilentRun(h) >= k
    decreases k
  {
    if k > 0 {
      SilenceRuns(h[..|h| - 1], k - 1);
    }
  }

  /** A window of nothing but padding. */
  function PadWindow(size: nat): (w: Window)
    ensures |w| == size
  {
    seq(size, i => MuLawToLinear(REPLAY_SILENCE) as real / 32768.0)
  }

  /** A detector that hears a window of pure padding, constant and full-scale, as silence. */
  ghost predicate HearsPadding(c: VADConfig, det: Detector)
    requires Resolved(c)
  {
    forall ws: seq<Window> ::
      ws != [] && ws[|ws| - 1] == PadWindow(c.windowSize) ==> Classify(c, det(ws)) == Silent
  }

  lemma WindowWithin(a: nat, b: nat, size: nat, k: nat)
    requires size > 0 && a / size < k < b / size
    ensures 0 <= a <= k * size && k * size + size == (k + 1) * size <= b
  {
    var from, total := a / size, b / size;
    assert a == from * size + a % size && b == total * size + b % size;
    CyclicClip.MulAtLeast(k - from, size);
    CyclicClip.MulAtLeast(total - k, size);
    assert (k - from) * size == k * size - from * size;
    assert (total - k) * size == total * size - k * size;
  }

  /** Windows that lie wholly in the padding, whatever remainder the recording left. */
  lemma WindowsOfPadding(c: VADConfig, bytes: seq<Byte>, k: nat)
    requires Resolved(c)
    requires |bytes| / c.windowSize < k < (|bytes| + |Padding(c)|) / c.windowSize
    ensures var ws := Windows(c.windowSize, DecodeMuLaw(bytes + Padding(c)));
            k < |ws| && ws[k] == PadWindow(c.windowSize)
  {
    var size := c.windowSize;
    var all := bytes + Padding(c);
    var s := DecodeMuLaw(all);
    WindowWithin(|bytes|, |all|, size, k);
    WindowAt(size, s, k);
    hide Windows;
    var at := k * size;
    var window, pad := s[at..at + size], PadWindow(size);
    forall i | 0 <= i < size
      ensures window[i] == pad[i]
    {
      assert all[at + i] == REPLAY_SILENCE;
    }
  }

  /**
   Whatever the recording, the VAD is not left speaking once the padding has gone through,
   provided the padding makes enough whole windows of its own.
   */
  lemma PaddingClosesUtterance(c: VADConfig, det: Detector, bytes: seq<Byte>)
    requires Resolved(c) && HearsPadding(c, det)
    requires (|bytes| + |Padding(c)|) / c.windowSize - |bytes| / c.windowSize > EndAt(c)
    ensures !Whole(c, det, bytes + Padding(c)).machine.speaking
  {
    hide Whole, PaddedWindows, Probs, EndAt, Padding, MachineAfter, Classify, HearsPadding;
    var ws := PaddedWindows(c, bytes);
    PaddedWindowCount(c, bytes);
    forall i | |ws| - EndAt(c) <= i < |ws|
      ensures Classify(c, Probs(det, ws)[i]) == Silent
    {
      PaddingHeardSilent(c, det, bytes, i);
    }
    SilentTailStops(c, Probs(det, ws));
    WholeOfPadded(c, det, bytes);
  }

  function PaddedWindows(c: VADConfig, bytes: seq<Byte>): seq<Window>
    requires Resolved(c)
  {
    Windows(c.windowSize, DecodeMuLaw(bytes + Padding(c)))
  }

  lemma WholeOfPadded(c: VADConfig, det: Detector, bytes: seq<Byte>)
    requires Resolved(c)
    ensures Whole(c, det, bytes + Padding(c)).machine == MachineAfter(c, FRESH, Probs(det, PaddedWindows(c, bytes)))
  {
  }

  lemma PaddedWindowCount(c: VADConfig, bytes: seq<Byte>)
    requires Resolved(c)
    ensures |PaddedWindows(c, bytes)| == (|bytes| + |Padding(c)|) / c.windowSize
  {
    WindowCount(c.windowSize, DecodeMuLaw(bytes + Padding(c)));
  }

  lemma PaddingHeardSilent(c: VADConfig, det: Detector, bytes: seq<Byte>, i: nat)
    requires Resolved(c) && HearsPadding(c, det)
    requires |bytes| / c.windowSize < i < (|bytes| + |Padding(c)|) / c.windowSize
    ensures i < |PaddedWindows(c, bytes)|
    ensures Classify(c, Probs(det, PaddedWindows(c, bytes))[i]) == Silent
  {
    hide *;
    WindowsOfPadding(c, bytes, i);
    SameWindows(c, bytes);
    HeardSilent(c, det, PaddedWindows(c, bytes), i);
  }

  lemma SameWindows(c: VADConfig, bytes: seq<Byte>)
    requires Resolved(c)
    ensures PaddedWindows(c, bytes) == Windows(c.windowSize, DecodeMuLaw(bytes + Padding(c)))
  {
  }

  lemma HeardSilent(c: VADConfig, det: Detector, ws: seq<Window>, i: nat)
    requires Resolved(c) && HearsPadding(c, det) && i < |ws| && ws[i] == PadWindow(c.windowSize)
    ensures Classify(c, Probs(det, ws)[i]) == Silent
  {
    hide Classify, PadWindow;
    assert ws[..i + 1][i] == ws[i];
  }

  /** Enough silent windows at the end of any history stop the machine speaking. */
  lemma SilentTailStops(c: VADConfig, probs: seq<real>)
    requires Resolved(c) && EndAt(c) <= |probs|
    requires forall i :: |probs| - EndAt(c) <= i < |probs| ==> Classify(c, probs[i]) == Silent
    ensures !MachineAfter(c, FRESH, probs).speaking
  {
    hide Classify, EndAt, MachineAfter, SilentRun;
    var h := Classes(c, probs);
    SilenceRuns(h, EndAt(c));
    StartTracks(c);
    MachineTracks(c, FRESH, [], probs);
    assert [] + h == h;
  }

  lemma StartTracks(c: VADConfig)
    requires Resolved(c)
    ensures Tracks(c, FRESH, [])
  {
  }

  /** Windows no longer than a replay frame always get enough of it. */
  lemma ShortWindowsClose(c: VADConfig, det: Detector, bytes: seq<Byte>)
    requires Resolved(c) && HearsPadding(c, det) && c.windowSize <= READ_BYTES
    ensures !Whole(c, det, bytes + Padding(c)).machine.speaking
  {
    WindowsGained(|bytes|, c.windowSize, PaddingFrames(c));
    hide WindowsToCross;
    PaddingClosesUtterance(c, det, bytes);
  }

  lemma WindowsGained(a: nat, w: nat, n: nat)
    requires 0 < w <= READ_BYTES
    ensures (a + n * READ_BYTES) / w >= a / w + n
  {
    var t := a + n * READ_BYTES;
    var q, p := a / w, t / w;
    assert a == q * w + a % w && t == p * w + t % w;
    assert n * READ_BYTES == n * w + n * (READ_BYTES - w) && n * (READ_BYTES - w) >= 0;
    assert (q + n - p) * w == q * w + n * w - p * w;
    if p < q + n {
      CyclicClip.MulAtLeast(q + n - p, w);
    }
  }
}
