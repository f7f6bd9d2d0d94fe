/**
 The bound in its call: Bridge.Run publishing each backend event into a 16-slot buffer that
 drops when full and then dispatching it to the sink, the drain observing what got through,
 the select loop writing playout marks through the write slot, the marks resolving, and
 timer callbacks that Stop cannot take back. One atomic step each, in any order.
 */
module SilenceRelay {
  import opened Common
  import opened CallerSilence

  const EVENTS_DEPTH := 16

  /** What happened to the bound, in the order its mutex let it happen. */
  datatype Happening = Spoke | Audio | Claimed(gen: nat) | CountStarted(gen: nat) | ToolCall | Answered

  /** How far a claimed mark has come. */
  datatype Stage =
    | Writing
    | Outstanding
    | Spent
    | Armed(playedAt: nat, since: nat)     // its timer is pending, or its callback is under way
    | Fired(playedAt: nat, since: nat)

  /** One claim: the generation it captured, its place in the history, its mark's stage, and the event that asked for it. */
  datatype Issue = Issue(gen: nat, at: nat, stage: Stage, req: nat)

  datatype Backend = Backend(
    evs: seq<Kind>,        // every event read
    pub: seq<bool>,        // whether each found room in the buffer
    dispatched: nat,       // how many have been dispatched
    buf: seq<nat>)         // published and not yet observed

  datatype Pc = Idle | Taking | Have(tag: nat, at: nat) | InSlot | Ending | Ended

  datatype Call = Call(
    b: Bound, back: Backend, pc: Pc, reqAt: nat, issues: seq<Issue>, hist: seq<Happening>, now: nat)

  function Opened(): Call {
    Call(NEW_BOUND, Backend([], [], 0, []), Idle, 0, [], [], 0)
  }

  datatype Step =
    | Read(kind: Kind)
    | Dispatch(gated: bool)
    | Drain
    | WakeMark
    | Take
    | TryClaim
    | Arm
    | WriteFails
    | Resolve(k: nat)
    | RunTimer(k: nat)
    | WakeExpired
    | TryEnd
    | StopCall
    | Tick(d: nat)

  predicate Enabled(after: nat, c: Call, step: Step) {
    match step
    case Read(kind) => c.back.dispatched == |c.back.evs|
    case Dispatch(gated) =>
      && c.back.dispatched < |c.back.evs|
      && (gated ==> c.back.evs[c.back.dispatched].AudioDelta?)
      && (c.back.evs[c.back.dispatched].AudioDelta? && !gated ==> !c.pc.InSlot?)
    case Drain => c.back.buf != [] && c.back.buf[0] < |c.back.evs|
    case WakeMark => c.pc == Idle && c.b.sig.dueCh
    case Take => c.pc == Taking
    case TryClaim => c.pc.Have?
    case Arm => c.pc == InSlot && c.issues != []
    case WriteFails => c.pc.Have? || c.pc.InSlot?
    case Resolve(k) => k < |c.issues| && c.issues[k].stage.Outstanding?
    case RunTimer(k) => k < |c.issues| && c.issues[k].stage.Armed? && c.now >= c.issues[k].stage.since + after
    case WakeExpired => c.pc == Idle && c.b.sig.firedCh
    case TryEnd => c.pc == Ending
    case StopCall => c.pc == Idle || c.pc == Ended
    case Tick(d) => true
  }

  function SetStage(issues: seq<Issue>, k: nat, stage: Stage): seq<Issue>
    requires k < |issues|
  {
    issues[k := issues[k].(stage := stage)]
  }

  function DoDispatch(c: Call, gated: bool): Call
    requires c.back.dispatched < |c.back.evs|
  {
    var n := c.(back := c.back.(dispatched := c.back.dispatched + 1));
    match c.back.evs[c.back.dispatched]
    case SpeechStart => n.(b := CallerSpoke(c.b), hist := c.hist + [Spoke])
    case AudioDelta => if gated then n else n.(b := AgentAudio(c.b), hist := c.hist + [Audio])
    case _ => n
  }

  function DoDrain(c: Call): Call
    requires c.back.buf != [] && c.back.buf[0] < |c.back.evs|
  {
    var i := c.back.buf[0];
    var ev := c.back.evs[i];
    c.(back := c.back.(buf := c.back.buf[1..]), b := Observe(c.b, ev),
       hist := if ev == Done(true) then c.hist + [ToolCall]
               else if ev == Done(false) then c.hist + [Answered]
               else c.hist,
       reqAt := if ev == Done(false) && !c.b.drain.speaking then i else c.reqAt)
  }

  function DoClaim(c: Call): Call
    requires c.pc.Have?
  {
    var (b, g) := Claim(c.b, c.pc.tag);
    if g.None? then c.(pc := Idle)
    else c.(b := b, pc := InSlot, hist := c.hist + [Claimed(g.value)],
            issues := c.issues + [Issue(g.value, |c.hist|, Writing, c.pc.at)])
  }

  function DoResolve(c: Call, k: nat): Call
    requires k < |c.issues|
  {
    var g := c.issues[k].gen;
    if Starts(c.b, g)
    then c.(b := Played(c.b, g), hist := c.hist + [CountStarted(g)],
            issues := SetStage(c.issues, k, Armed(|c.hist|, c.now)))
    else c.(issues := SetStage(c.issues, k, Spent))
  }

  function DoRunTimer(c: Call, k: nat): Call
    requires k < |c.issues| && c.issues[k].stage.Armed?
  {
    var i := c.issues[k];
    c.(b := Fire(c.b, i.gen), issues := SetStage(c.issues, k, Fired(i.stage.playedAt, i.stage.since)))
  }

  function Next(after: nat, c: Call, step: Step): Call
    requires Enabled(after, c, step)
  {
    match step
    case Read(kind) =>
      var room := |c.back.buf| < EVENTS_DEPTH;
      c.(back := c.back.(evs := c.back.evs + [kind], pub := c.back.pub + [room],
                         buf := if room then c.back.buf + [|c.back.evs|] else c.back.buf))
    case Dispatch(gated) => DoDispatch(c, gated)
    case Drain => DoDrain(c)
    case WakeMark => c.(pc := Taking, b := c.b.(sig := c.b.sig.(dueCh := false)))
    case Take =>
      var (b, tag) := TakeRequest(c.b);
      if tag.None? then c.(pc := Idle) else c.(b := b, pc := Have(tag.value, c.reqAt))
    case TryClaim => DoClaim(c)
    case Arm => c.(pc := Idle, issues := SetStage(c.issues, |c.issues| - 1, Outstanding))
    case WriteFails => c.(pc := Ended)
    case Resolve(k) => DoResolve(c, k)
    case RunTimer(k) => DoRunTimer(c, k)
    case WakeExpired => c.(pc := Ending, b := c.b.(sig := c.b.sig.(firedCh := false)))
    case TryEnd => c.(pc := if Ends(c.b) then Ended else Idle, b := End(c.b))
    case StopCall => c.(pc := Ended, b := Stop(c.b))
    case Tick(d) => c.(now := c.now + d)
  }

  ghost predicate Legal(after: nat, c: Call, steps: seq<Step>)
    decreases |steps|
  {
    steps == [] || (Enabled(after, c, steps[0]) && Legal(after, Next(after, c, steps[0]), steps[1..]))
  }

  ghost function After(after: nat, c: Call, steps: seq<Step>): Call
    requires Legal(after, c, steps)
    decreases |steps|
  {
    if steps == [] then c else After(after, Next(after, c, steps[0]), steps[1..])
  }

  // ---- generations -----------------------------------------------------------------------------

  /** Neither the caller nor the agent has been heard after position i of the history. */
  ghost predicate QuietSince(hist: seq<Happening>, i: nat) {
    forall k :: i < k < |hist| ==> hist[k] != Spoke && hist[k] != Audio
  }

  ghost predicate NoToolSince(hist: seq<Happening>, i: nat) {
    forall k :: i < k < |hist| ==> hist[k] != ToolCall
  }

  /** Whether the last response observed ended in a tool call, so that a reply is still to come. */
  function ReplyOwed(hist: seq<Happening>): bool {
    if hist == [] then false
    else
      match hist[|hist| - 1]
      case ToolCall => true
      case Answered => false
      case _ => ReplyOwed(hist[..|hist| - 1])
  }

  lemma ReplyOwedMore(hist: seq<Happening>, x: Happening)
    ensures ReplyOwed(hist + [x]) == (if x == ToolCall then true else if x == Answered then false else ReplyOwed(hist))
  {
    assert (hist + [x])[..|hist|] == hist;
  }

  /** Claims are in history order with strictly growing generations: none is claimed twice. */
  ghost predicate Ordered(issues: seq<Issue>) {
    forall i, j :: 0 <= i < j < |issues| ==> issues[i].gen < issues[j].gen
  }

  ghost predicate IssueFits(c: Call, i: Issue) {
    && i.gen <= c.b.sink.gen
    && i.at < |c.hist| && c.hist[i.at] == Claimed(i.gen)
    && (i.gen == c.b.sink.gen ==> QuietSince(c.hist, i.at))
    && (i.stage.Armed? || i.stage.Fired? ==>
          i.at < i.stage.playedAt < |c.hist| && c.hist[i.stage.playedAt] == CountStarted(i.gen))
  }

  ghost predicate IssuesFit(c: Call) { forall k :: 0 <= k < |c.issues| ==> IssueFits(c, c.issues[k]) }

  /** Unclaimed audio is newer than every claim. */
  ghost predicate AudioFresh(c: Call) {
    && (c.b.sink.audio ==> forall k :: 0 <= k < |c.issues| ==> c.issues[k].gen < c.b.sink.gen)
    && (c.pc == InSlot ==> c.issues != [] && c.issues[|c.issues| - 1].stage.Writing?)
  }

  /** A running or expired count belongs to the latest claim, and no tool call came since. */
  ghost predicate CountOwned(after: nat, c: Call) {
    var n := |c.issues|;
    && (c.b.count.stopped ==> !c.b.count.running && !c.b.count.due)
    && (c.b.count.running || c.b.count.due ==> n > 0 && c.issues[n - 1].gen == c.b.sink.gen)
    && (c.b.count.running ==> c.issues[n - 1].stage.Armed? && NoToolSince(c.hist, c.issues[n - 1].stage.playedAt))
    && (c.b.count.due ==> c.issues[n - 1].stage.Fired? && NoToolSince(c.hist, c.issues[n - 1].stage.playedAt)
                          && c.now >= c.issues[n - 1].stage.since + after)
  }

  ghost predicate Owned(after: nat, c: Call) {
    Ordered(c.issues) && IssuesFit(c) && AudioFresh(c) && CountOwned(after, c)
  }

  predicate Started(s: Stage) { s.Armed? || s.Fired? }

  /** The pending flag is the reply owed, and no count started while one was. */
  ghost predicate RepliesTracked(c: Call) {
    && c.b.drain.pending == ReplyOwed(c.hist)
    && (forall k :: 0 <= k < |c.issues| && Started(c.issues[k].stage) ==>
          c.issues[k].stage.playedAt < |c.hist| && !ReplyOwed(c.hist[..c.issues[k].stage.playedAt]))
  }

  /** The history grows by one happening, with the issues' start positions as they were. */
  lemma HistoryTracked(c: Call, n: Call, x: Happening)
    requires RepliesTracked(c) && n.hist == c.hist + [x] && n.b.drain.pending == ReplyOwed(n.hist)
    requires |c.issues| <= |n.issues|
    requires forall k :: 0 <= k < |c.issues| && Started(n.issues[k].stage) ==> n.issues[k] == c.issues[k]
    requires forall k :: |c.issues| <= k < |n.issues| ==> !Started(n.issues[k].stage)
    ensures RepliesTracked(n)
  {
    forall k | 0 <= k < |n.issues| && Started(n.issues[k].stage)
      ensures n.issues[k].stage.playedAt < |n.hist| && !ReplyOwed(n.hist[..n.issues[k].stage.playedAt])
    {
      var at := c.issues[k].stage.playedAt;
      assert n.hist[..at] == c.hist[..at];
    }
  }

  lemma ResolveTracked(c: Call, k: nat)
    requires RepliesTracked(c) && k < |c.issues| && c.issues[k].stage.Outstanding?
    ensures RepliesTracked(DoResolve(c, k))
  {
    var n := DoResolve(c, k);
    if Starts(c.b, c.issues[k].gen) {
      ReplyOwedMore(c.hist, CountStarted(c.issues[k].gen));
      assert n.hist[..|c.hist|] == c.hist;
      forall j | 0 <= j < |n.issues| && Started(n.issues[j].stage)
        ensures n.issues[j].stage.playedAt < |n.hist| && !ReplyOwed(n.hist[..n.issues[j].stage.playedAt])
      {
        if j != k {
          assert n.hist[..c.issues[j].stage.playedAt] == c.hist[..c.issues[j].stage.playedAt];
        }
      }
    }
  }

  lemma DispatchTracked(after: nat, c: Call, gated: bool)
    requires Enabled(after, c, Dispatch(gated)) && RepliesTracked(c)
    ensures RepliesTracked(DoDispatch(c, gated))
  {
    var n := DoDispatch(c, gated);
    hide ReplyOwed, RepliesTracked;
    if n.hist != c.hist {
      ReplyOwedMore(c.hist, n.hist[|c.hist|]);
      HistoryTracked(c, n, n.hist[|c.hist|]);
    }
  }

  lemma DrainTracked(after: nat, c: Call)
    requires Enabled(after, c, Step.Drain) && RepliesTracked(c)
    ensures RepliesTracked(DoDrain(c))
  {
    var n := DoDrain(c);
    hide ReplyOwed;
    if n.hist != c.hist {
      ReplyOwedMore(c.hist, n.hist[|c.hist|]);
      HistoryTracked(c, n, n.hist[|c.hist|]);
    }
  }

  lemma ClaimTracked(after: nat, c: Call)
    requires Enabled(after, c, TryClaim) && RepliesTracked(c)
    ensures RepliesTracked(DoClaim(c))
  {
    var n := DoClaim(c);
    hide ReplyOwed;
    if n.hist != c.hist {
      ReplyOwedMore(c.hist, n.hist[|c.hist|]);
      HistoryTracked(c, n, n.hist[|c.hist|]);
    }
  }

  lemma RepliesKept(after: nat, c: Call, step: Step)
    requires Enabled(after, c, step) && RepliesTracked(c)
    ensures RepliesTracked(Next(after, c, step))
  {
    hide ReplyOwed, DoDispatch, DoDrain, DoClaim, DoResolve;
    match step
    case Dispatch(gated) => DispatchTracked(after, c, gated);
    case Drain => DrainTracked(after, c);
    case TryClaim => ClaimTracked(after, c);
    case Resolve(k) => ResolveTracked(c, k);
    case RunTimer(k) =>
    case Arm =>
    case _ => hide DoRunTimer;
  }

  lemma DispatchOwned(after: nat, c: Call, gated: bool)
    requires Enabled(after, c, Dispatch(gated)) && Owned(after, c)
    ensures Owned(after, DoDispatch(c, gated))
  {
  }

  lemma DrainOwned(after: nat, c: Call)
    requires Enabled(after, c, Step.Drain) && Owned(after, c)
    ensures Owned(after, DoDrain(c))
  {
    assert c.back.buf != [];
    hide Enabled;
  }

  lemma ClaimOwned(after: nat, c: Call)
    requires Enabled(after, c, TryClaim) && Owned(after, c)
    ensures Owned(after, DoClaim(c))
  {
  }

  lemma ResolveOwned(after: nat, c: Call, k: nat)
    requires Enabled(after, c, Resolve(k)) && Owned(after, c)
    ensures Owned(after, DoResolve(c, k))
  {
    assert c.issues[k].stage.Outstanding?;
    hide Enabled;
  }

  lemma RunTimerOwned(after: nat, c: Call, k: nat)
    requires Enabled(after, c, RunTimer(k)) && Owned(after, c)
    ensures Owned(after, DoRunTimer(c, k))
  {
  }

  lemma OwnedKept(after: nat, c: Call, step: Step)
    requires Enabled(after, c, step) && Owned(after, c)
    ensures Owned(after, Next(after, c, step))
  {
    hide DoDispatch, DoDrain, DoClaim, DoResolve, DoRunTimer, Observe;
    match step
    case Dispatch(gated) => DispatchOwned(after, c, gated);
    case Drain => DrainOwned(after, c);
    case TryClaim => ClaimOwned(after, c);
    case Arm => ArmOwned(after, c);
    case Resolve(k) => ResolveOwned(after, c, k);
    case RunTimer(k) => RunTimerOwned(after, c, k);
    case _ => OthersOwned(after, c, step);
  }

  lemma ArmOwned(after: nat, c: Call)
    requires Enabled(after, c, Arm) && Owned(after, c)
    ensures Owned(after, Next(after, c, Arm))
  {
  }

  lemma OthersOwned(after: nat, c: Call, step: Step)
    requires Enabled(after, c, step) && Owned(after, c)
    requires !step.Dispatch? && !step.Drain? && !step.TryClaim? && !step.Arm? && !step.Resolve? && !step.RunTimer?
    ensures Owned(after, Next(after, c, step))
  {
    hide DoDispatch, DoDrain, DoClaim, DoResolve, DoRunTimer, Observe;
    var n := Next(after, c, step);
    assert n.issues == c.issues && n.hist == c.hist && n.b.sink == c.b.sink;
    assert IssuesFit(n) by {
      forall k | 0 <= k < |n.issues|
        ensures IssueFits(n, n.issues[k])
      {
        assert IssueFits(c, c.issues[k]);
      }
    }
  }

  /** A claim whose generation has passed was overtaken by caller speech or agent audio. */
  ghost predicate Overtaken(c: Call) {
    forall k :: 0 <= k < |c.issues| && c.issues[k].gen != c.b.sink.gen ==> !QuietSince(c.hist, c.issues[k].at)
  }

  lemma NotQuietLater(hist: seq<Happening>, more: seq<Happening>, i: nat)
    requires hist <= more && !QuietSince(hist, i)
    ensures !QuietSince(more, i)
  {
    var k :| i < k < |hist| && (hist[k] == Spoke || hist[k] == Audio);
    assert more[k] == hist[k];
  }

  /** The claims stay, and the generation moves only with speech or audio. */
  ghost predicate ClaimsStand(c: Call, n: Call) {
    && c.hist <= n.hist && |c.issues| <= |n.issues|
    && (forall k :: 0 <= k < |c.issues| ==> n.issues[k].gen == c.issues[k].gen && n.issues[k].at == c.issues[k].at)
    && (forall k :: |c.issues| <= k < |n.issues| ==> n.issues[k].gen == n.b.sink.gen)
    && (n.b.sink.gen == c.b.sink.gen || n.hist == c.hist + [Spoke] || n.hist == c.hist + [Audio])
  }

  lemma StepStands(after: nat, c: Call, step: Step)
    requires Enabled(after, c, step)
    ensures ClaimsStand(c, Next(after, c, step))
  {
  }

  lemma OvertakenKept(after: nat, c: Call, step: Step)
    requires Enabled(after, c, step) && Owned(after, c) && Overtaken(c)
    ensures Overtaken(Next(after, c, step))
  {
    var n := Next(after, c, step);
    StepStands(after, c, step);
    hide Next, Enabled, QuietSince, Ordered, AudioFresh, CountOwned;
    forall k | 0 <= k < |n.issues| && n.issues[k].gen != n.b.sink.gen
      ensures !QuietSince(n.hist, n.issues[k].at)
    {
      assert IssueFits(c, c.issues[k]);
      if c.issues[k].gen != c.b.sink.gen {
        NotQuietLater(c.hist, n.hist, c.issues[k].at);
      } else {
        assert n.hist[|c.hist|] == Spoke || n.hist[|c.hist|] == Audio;
        NotQuietAt(n.hist, c.issues[k].at, |c.hist|);
      }
    }
  }

  lemma NotQuietAt(hist: seq<Happening>, i: nat, k: nat)
    requires i < k < |hist| && (hist[k] == Spoke || hist[k] == Audio)
    ensures !QuietSince(hist, i)
  {
  }

  /** Whether agent audio has gone out that no claim has answered and no caller speech has cut off. */
  function AudioOpen(hist: seq<Happening>): bool {
    if hist == [] then false
    else
      match hist[|hist| - 1]
      case Audio => true
      case Spoke => false
      case Claimed(_) => false
      case _ => AudioOpen(hist[..|hist| - 1])
  }

  lemma AudioOpenMore(hist: seq<Happening>, x: Happening)
    ensures AudioOpen(hist + [x]) == AudioAfter(AudioOpen(hist), x)
  {
    assert (hist + [x])[..|hist|] == hist;
  }

  /** The audio flag is what the history says, and the bound is off only once the call has ended. */
  ghost predicate AudioTracked(c: Call) {
    c.b.sink.audio == AudioOpen(c.hist) && (c.b.count.stopped ==> c.pc == Ended)
  }

  /** The audio flag after one more happening. */
  function AudioAfter(was: bool, x: Happening): bool {
    if x == Audio then true else if x == Spoke || x.Claimed? then false else was
  }

  lemma FlagMoves(after: nat, c: Call, step: Step)
    requires Enabled(after, c, step)
    ensures var n := Next(after, c, step);
            (n.hist == c.hist && n.b.sink.audio == c.b.sink.audio)
            || (|n.hist| > |c.hist| && n.hist == c.hist + [n.hist[|c.hist|]]
                && n.b.sink.audio == AudioAfter(c.b.sink.audio, n.hist[|c.hist|]))
  {
    hide SetStage;
  }

  lemma OffOnlyAtEnd(after: nat, c: Call, step: Step)
    requires Enabled(after, c, step) && (c.b.count.stopped ==> c.pc == Ended)
    ensures Next(after, c, step).b.count.stopped ==> Next(after, c, step).pc == Ended
  {
    hide SetStage;
  }

  lemma AudioTrackedKept(after: nat, c: Call, step: Step)
    requires Enabled(after, c, step) && AudioTracked(c)
    ensures AudioTracked(Next(after, c, step))
  {
    var n := Next(after, c, step);
    FlagMoves(after, c, step);
    OffOnlyAtEnd(after, c, step);
    hide Next, Enabled, AudioOpen;
    if n.hist != c.hist {
      AudioOpenMore(c.hist, n.hist[|c.hist|]);
    }
  }

  /** Silence from a claim on, and no tool call since its mark played. */
  ghost predicate Undisturbed(hist: seq<Happening>, i: Issue) {
    Started(i.stage) && QuietSince(hist, i.at) && NoToolSince(hist, i.stage.playedAt)
  }

  /** A count nothing has disturbed is still running, or has run out, until the bound is off. */
  ghost predicate CountsOn(c: Call) {
    forall k :: 0 <= k < |c.issues| && Undisturbed(c.hist, c.issues[k]) && !c.b.count.stopped ==>
      if c.issues[k].stage.Armed? then c.b.count.running else c.b.count.due
  }

  lemma UndisturbedBefore(hist: seq<Happening>, more: seq<Happening>, i: Issue)
    requires hist <= more && Undisturbed(more, i)
    ensures Undisturbed(hist, i)
  {
    assert forall k :: 0 <= k < |hist| ==> more[k] == hist[k];
  }

  /** Only the live generation's claim can be undisturbed, and there is one such claim at most. */
  lemma UndisturbedIsLive(after: nat, c: Call, j: nat, k: nat)
    requires Owned(after, c) && Overtaken(c) && j < |c.issues| && k < |c.issues|
    requires Undisturbed(c.hist, c.issues[j])
    ensures c.issues[j].gen == c.b.sink.gen
    ensures c.issues[k].gen == c.b.sink.gen ==> j == k
  {
    hide QuietSince, NoToolSince, IssuesFit, AudioFresh, CountOwned;
  }

  lemma OthersDisturbed(after: nat, c: Call, j: nat, k: nat)
    requires Owned(after, c) && Overtaken(c) && j < |c.issues| && k < |c.issues| && j != k
    requires c.issues[k].gen == c.b.sink.gen
    ensures !Undisturbed(c.hist, c.issues[j])
  {
    hide QuietSince, NoToolSince, IssuesFit, AudioFresh, CountOwned;
  }

  lemma StaysDisturbed(hist: seq<Happening>, more: seq<Happening>, i: Issue)
    requires hist <= more && !Undisturbed(hist, i)
    ensures !Undisturbed(more, i)
  {
    assert forall k :: 0 <= k < |hist| ==> more[k] == hist[k];
  }

  /** The count goes on as it was through a step that disturbs nothing and changes no count. */
  lemma CountsCarry(c: Call, n: Call)
    requires CountsOn(c) && c.hist <= n.hist && n.b.count == c.b.count && |c.issues| <= |n.issues|
    requires forall k :: 0 <= k < |c.issues| ==> n.issues[k] == c.issues[k] || !Started(n.issues[k].stage)
    requires forall k :: |c.issues| <= k < |n.issues| ==> !Started(n.issues[k].stage)
    ensures CountsOn(n)
  {
    hide QuietSince, NoToolSince;
    forall k | 0 <= k < |n.issues| && Undisturbed(n.hist, n.issues[k])
      ensures k < |c.issues| && Undisturbed(c.hist, c.issues[k])
    {
      UndisturbedBefore(c.hist, n.hist, n.issues[k]);
    }
  }

  /** Speech, audio or a tool call leaves no claim undisturbed. */
  lemma DisturbsAll(c: Call, n: Call, x: Happening)
    requires IssuesFit(c) && n.hist == c.hist + [x] && n.issues == c.issues
    requires x == Spoke || x == Audio || x == ToolCall
    ensures CountsOn(n)
  {
    forall k | 0 <= k < |n.issues|
      ensures !Undisturbed(n.hist, n.issues[k])
    {
      assert IssueFits(c, c.issues[k]);
      assert n.hist[|c.hist|] == x;
    }
  }

  lemma DispatchCountsOn(after: nat, c: Call, gated: bool)
    requires Enabled(after, c, Dispatch(gated)) && IssuesFit(c) && CountsOn(c)
    ensures CountsOn(DoDispatch(c, gated))
  {
    var n := DoDispatch(c, gated);
    hide IssuesFit, CountsOn;
    if n.hist == c.hist {
      CountsCarry(c, n);
    } else {
      DisturbsAll(c, n, n.hist[|c.hist|]);
    }
  }

  lemma DrainCountsOn(after: nat, c: Call)
    requires Enabled(after, c, Step.Drain) && IssuesFit(c) && CountsOn(c)
    ensures CountsOn(DoDrain(c))
  {
    var n := DoDrain(c);
    hide IssuesFit, CountsOn;
    if c.back.evs[c.back.buf[0]] == Done(true) {
      DisturbsAll(c, n, ToolCall);
    } else {
      CountsCarry(c, n);
    }
  }

  lemma ResolveCountsOn(after: nat, c: Call, k: nat)
    requires Enabled(after, c, Resolve(k)) && Owned(after, c) && Overtaken(c) && CountsOn(c)
    ensures CountsOn(DoResolve(c, k))
  {
    var n := DoResolve(c, k);
    hide Owned, Overtaken, QuietSince, NoToolSince;
    if Starts(c.b, c.issues[k].gen) {
      forall j | 0 <= j < |n.issues| && j != k
        ensures !Undisturbed(n.hist, n.issues[j])
      {
        OthersDisturbed(after, c, j, k);
        StaysDisturbed(c.hist, n.hist, c.issues[j]);
      }
    } else {
      CountsCarry(c, n);
    }
  }

  lemma RunTimerCountsOn(after: nat, c: Call, k: nat)
    requires Enabled(after, c, RunTimer(k)) && Owned(after, c) && Overtaken(c) && CountsOn(c)
    ensures CountsOn(DoRunTimer(c, k))
  {
    var n := DoRunTimer(c, k);
    hide Owned, Overtaken, QuietSince, NoToolSince;
    forall j | 0 <= j < |n.issues| && Undisturbed(n.hist, n.issues[j])
      ensures Undisturbed(c.hist, c.issues[j]) && (c.issues[k].gen == c.b.sink.gen ==> j == k)
      ensures c.issues[j].gen == c.b.sink.gen
    {
      UndisturbedIsLive(after, c, j, k);
    }
  }

  lemma CountsOnKept(after: nat, c: Call, step: Step)
    requires Enabled(after, c, step) && Owned(after, c) && Overtaken(c) && CountsOn(c)
    ensures CountsOn(Next(after, c, step))
  {
    hide CountsOn, Overtaken, IssuesFit, AudioFresh, CountOwned, Ordered, DoDispatch, DoDrain, DoResolve, DoRunTimer;
    match step
    case Dispatch(gated) => DispatchCountsOn(after, c, gated);
    case Drain => DrainCountsOn(after, c);
    case Resolve(k) => ResolveCountsOn(after, c, k);
    case RunTimer(k) => RunTimerCountsOn(after, c, k);
    case TryEnd =>
      if Ends(c.b) {
        OffCountsOn(Next(after, c, step));
      } else {
        CountsCarry(c, Next(after, c, step));
      }
    case StopCall => OffCountsOn(Next(after, c, step));
    case _ => CountsCarry(c, Next(after, c, step));
  }

  lemma OffCountsOn(c: Call)
    requires c.b.count.stopped
    ensures CountsOn(c)
  {
  }

  // ---- counters --------------------------------------------------------------------------------

  function One(p: bool): nat { if p then 1 else 0 }

  /** Speech starts among the first i events. */
  function StartsIn(evs: seq<Kind>, i: nat): nat
    requires i <= |evs|
  {
    if i == 0 then 0 else StartsIn(evs, i - 1) + One(evs[i - 1].SpeechStart?)
  }

  /** Those of them that were published. */
  function HeardIn(evs: seq<Kind>, pub: seq<bool>, i: nat): nat
    requires i <= |evs| == |pub|
  {
    if i == 0 then 0 else HeardIn(evs, pub, i - 1) + One(evs[i - 1].SpeechStart? && pub[i - 1])
  }

  /** Whether the caller holds the turn, as the published events before i tell it. */
  function MidUtterance(evs: seq<Kind>, pub: seq<bool>, i: nat): bool
    requires i <= |evs| == |pub|
  {
    if i == 0 then false
    else if pub[i - 1] && evs[i - 1].SpeechStart? then true
    else if pub[i - 1] && evs[i - 1].SpeechStop? then false
    else MidUtterance(evs, pub, i - 1)
  }

  lemma {:induction false} CountsStable(evs: seq<Kind>, pub: seq<bool>, kind: Kind, room: bool, i: nat)
    requires i <= |evs| == |pub|
    ensures StartsIn(evs + [kind], i) == StartsIn(evs, i)
    ensures HeardIn(evs + [kind], pub + [room], i) == HeardIn(evs, pub, i)
    ensures MidUtterance(evs + [kind], pub + [room], i) == MidUtterance(evs, pub, i)
    decreases i
  {
    if i > 0 {
      CountsStable(evs, pub, kind, room, i - 1);
    }
  }

  /** Where the drain stands: everything published before here has been observed. */
  function Front(back: Backend): nat { if back.buf == [] then |back.evs| else back.buf[0] }

  /** The end of the stretch that follows the j-th buffered index. */
  function Following(back: Backend, j: nat): nat
    requires j < |back.buf|
  {
    if j + 1 < |back.buf| then back.buf[j + 1] else |back.evs|
  }

  /** The buffer holds exactly the published indices from the front on. */
  ghost predicate BufferFits(back: Backend) {
    && |back.pub| == |back.evs|
    && |back.buf| <= EVENTS_DEPTH
    && back.dispatched <= |back.evs| <= back.dispatched + 1
    && (forall j :: 0 <= j < |back.buf| ==>
          back.buf[j] < Following(back, j) <= |back.evs| && back.pub[back.buf[j]])
    && (forall j, k :: 0 <= j < |back.buf| && back.buf[j] < k < Following(back, j) ==> !back.pub[k])
  }

  /** A published response, not ended in a tool call, that came while the caller was not mid-utterance. */
  ghost predicate AsksForMark(back: Backend, at: nat) {
    && |back.pub| == |back.evs|
    && at < |back.evs| && back.evs[at] == Done(false) && back.pub[at]
    && !MidUtterance(back.evs, back.pub, at)
  }

  ghost predicate Requested(back: Backend, at: nat, tag: nat) {
    AsksForMark(back, at) && tag == HeardIn(back.evs, back.pub, at)
  }

  /** Every claim answers such a response. */
  ghost predicate ClaimsAsked(c: Call) {
    forall k :: 0 <= k < |c.issues| ==> AsksForMark(c.back, c.issues[k].req)
  }

  lemma AskedKept(after: nat, c: Call, step: Step)
    requires Enabled(after, c, step) && Tallied(c) && ClaimsAsked(c)
    ensures ClaimsAsked(Next(after, c, step))
  {
    var n := Next(after, c, step);
    BackendExtends(after, c, step);
    RequestsKept(after, c, step);
    hide Next, Tallied;
    forall k | 0 <= k < |n.issues|
      ensures AsksForMark(n.back, n.issues[k].req)
    {
      if k < |c.issues| {
        assert AsksForMark(c.back, c.issues[k].req);
        AskStays(c.back, n.back, c.issues[k].req);
      }
    }
  }

  /** A step leaves the requests of earlier claims alone, and a new claim carries the one it was made for. */
  lemma RequestsKept(after: nat, c: Call, step: Step)
    requires Enabled(after, c, step) && Tallied(c)
    ensures var n := Next(after, c, step);
            && |c.issues| <= |n.issues| && |n.back.pub| == |n.back.evs|
            && (forall k :: 0 <= k < |c.issues| ==> n.issues[k].req == c.issues[k].req)
            && (forall k :: |c.issues| <= k < |n.issues| ==> AsksForMark(n.back, n.issues[k].req))
  {
    SameLengths(c);
    BackendExtends(after, c, step);
    SameLengthsAfter(after, c, step);
    hide Tallied, SetStage, Observe, DoDispatch, DoDrain;
    if step.TryClaim? {
      HeldAsks(c);
    } else {
      OldRequests(after, c, step);
      hide Next;
    }
    hide Requested, AsksForMark;
  }

  lemma SetStageKeeps(issues: seq<Issue>, k: nat, stage: Stage)
    requires k < |issues|
    ensures |SetStage(issues, k, stage)| == |issues|
    ensures forall j :: 0 <= j < |issues| ==> SetStage(issues, k, stage)[j].req == issues[j].req
  {
  }

  lemma OldRequests(after: nat, c: Call, step: Step)
    requires Enabled(after, c, step) && !step.TryClaim?
    ensures var n := Next(after, c, step);
            && |n.issues| == |c.issues|
            && (forall k :: 0 <= k < |c.issues| ==> n.issues[k].req == c.issues[k].req)
  {
    hide SetStage, Observe;
    match step
    case Arm => SetStageKeeps(c.issues, |c.issues| - 1, Outstanding);
    case Resolve(k) =>
      SetStageKeeps(c.issues, k, Spent);
      SetStageKeeps(c.issues, k, Armed(|c.hist|, c.now));
    case RunTimer(k) => SetStageKeeps(c.issues, k, Fired(c.issues[k].stage.playedAt, c.issues[k].stage.since));
    case _ =>
  }

  lemma SameLengthsAfter(after: nat, c: Call, step: Step)
    requires Enabled(after, c, step) && |c.back.pub| == |c.back.evs|
    ensures |Next(after, c, step).back.pub| == |Next(after, c, step).back.evs|
  {
    hide Observe, Claim, Played, Fire, SetStage;
  }

  lemma SameLengths(c: Call)
    requires Tallied(c)
    ensures |c.back.pub| == |c.back.evs|
  {
  }

  lemma HeldAsks(c: Call)
    requires Tallied(c) && c.pc.Have?
    ensures AsksForMark(c.back, c.pc.at)
  {
    hide AsksForMark;
  }

  lemma {:induction false} MidStable(a: Backend, b: Backend, i: nat)
    requires |a.pub| == |a.evs| && |b.pub| == |b.evs| && a.evs <= b.evs && a.pub <= b.pub && i <= |a.evs|
    ensures MidUtterance(b.evs, b.pub, i) == MidUtterance(a.evs, a.pub, i)
    decreases i
  {
    if i > 0 {
      MidStable(a, b, i - 1);
    }
  }

  lemma AskStays(a: Backend, b: Backend, at: nat)
    requires AsksForMark(a, at) && |b.pub| == |b.evs| && a.evs <= b.evs && a.pub <= b.pub
    ensures AsksForMark(b, at)
  {
    MidStable(a, b, at);
  }

  ghost predicate Tallied(c: Call) {
    && BufferFits(c.back)
    && c.b.sink.starts == StartsIn(c.back.evs, c.back.dispatched)
    && Front(c.back) <= |c.back.evs|
    && c.b.drain.heard == HeardIn(c.back.evs, c.back.pub, Front(c.back))
    && c.b.drain.speaking == MidUtterance(c.back.evs, c.back.pub, Front(c.back))
    && (c.b.drain.want ==> Requested(c.back, c.reqAt, c.b.drain.wantHeard))
    && (c.pc.Have? ==> Requested(c.back, c.pc.at, c.pc.tag))
  }

  lemma ReadTallied(after: nat, c: Call, kind: Kind)
    requires Enabled(after, c, Read(kind)) && Tallied(c)
    ensures Tallied(Next(after, c, Read(kind)))
  {
    var back, n := c.back, Next(after, c, Read(kind)).back;
    var room := |back.buf| < EVENTS_DEPTH;
    CountsStable(back.evs, back.pub, kind, room, back.dispatched);
    CountsStable(back.evs, back.pub, kind, room, Front(back));
    if c.b.drain.want {
      RequestStable(back, n, kind, room, c.reqAt, c.b.drain.wantHeard);
    }
    if c.pc.Have? {
      RequestStable(back, n, kind, room, c.pc.at, c.pc.tag);
    }
    BufferGrows(back, n, kind);
    hide StartsIn, HeardIn, MidUtterance, BufferFits, Requested, Front;
  }

  lemma RequestStable(back: Backend, n: Backend, kind: Kind, room: bool, at: nat, tag: nat)
    requires Requested(back, at, tag) && n.evs == back.evs + [kind] && n.pub == back.pub + [room]
    ensures Requested(n, at, tag)
  {
    CountsStable(back.evs, back.pub, kind, room, at);
  }

  lemma BufferGrows(back: Backend, n: Backend, kind: Kind)
    requires BufferFits(back) && back.dispatched == |back.evs|
    requires var room := |back.buf| < EVENTS_DEPTH;
             n == back.(evs := back.evs + [kind], pub := back.pub + [room],
                        buf := if room then back.buf + [|back.evs|] else back.buf)
    ensures BufferFits(n) && Front(n) == Front(back)
  {
    forall j | 0 <= j < |n.buf|
      ensures n.buf[j] < Following(n, j) <= |n.evs| && n.pub[n.buf[j]]
      ensures forall k :: n.buf[j] < k < Following(n, j) ==> !n.pub[k]
    {
      if j < |back.buf| {
        assert back.buf[j] < Following(back, j) <= |back.evs|;
      }
    }
  }

  lemma {:induction false} NoneHeardBetween(back: Backend, lo: nat, hi: nat)
    requires |back.pub| == |back.evs| && lo <= hi <= |back.evs|
    requires forall k :: lo <= k < hi ==> !back.pub[k]
    ensures HeardIn(back.evs, back.pub, hi) == HeardIn(back.evs, back.pub, lo)
    ensures MidUtterance(back.evs, back.pub, hi) == MidUtterance(back.evs, back.pub, lo)
    decreases hi
  {
    if lo < hi {
      NoneHeardBetween(back, lo, hi - 1);
    }
  }

  /** The drain's count moves on with the front of the buffer. */
  lemma FrontMoves(back: Backend, n: Backend)
    requires BufferFits(back) && back.buf != [] && n == back.(buf := back.buf[1..])
    ensures BufferFits(n) && Front(n) <= |n.evs|
    ensures HeardIn(n.evs, n.pub, Front(n)) ==
            HeardIn(back.evs, back.pub, back.buf[0]) + One(back.evs[back.buf[0]].SpeechStart?)
    ensures MidUtterance(n.evs, n.pub, Front(n)) ==
            (if back.evs[back.buf[0]].SpeechStart? then true
             else if back.evs[back.buf[0]].SpeechStop? then false
             else MidUtterance(back.evs, back.pub, back.buf[0]))
  {
    hide HeardIn, MidUtterance, BufferFits;
    BufferShrinks(back, n);
    FirstStretch(back);
    NextHeard(back, back.buf[0]);
    assert Following(back, 0) == Front(n);
    hide Front, Following;
    NoneHeardBetween(back, back.buf[0] + 1, Following(back, 0));
  }

  lemma FirstStretch(back: Backend)
    requires BufferFits(back) && back.buf != []
    ensures back.buf[0] < Following(back, 0) <= |back.evs| && back.pub[back.buf[0]]
    ensures forall k :: back.buf[0] + 1 <= k < Following(back, 0) ==> !back.pub[k]
  {
  }

  lemma NextHeard(back: Backend, i: nat)
    requires |back.pub| == |back.evs| && i < |back.evs|
    ensures HeardIn(back.evs, back.pub, i + 1) ==
            HeardIn(back.evs, back.pub, i) + One(back.evs[i].SpeechStart? && back.pub[i])
    ensures MidUtterance(back.evs, back.pub, i + 1) ==
            (if back.pub[i] && back.evs[i].SpeechStart? then true
             else if back.pub[i] && back.evs[i].SpeechStop? then false
             else MidUtterance(back.evs, back.pub, i))
  {
  }

  lemma DrainTallied(after: nat, c: Call)
    requires Enabled(after, c, Step.Drain) && Tallied(c)
    ensures Tallied(DoDrain(c))
  {
    FrontMoves(c.back, DoDrain(c).back);
    assert c.back.pub[c.back.buf[0]];
    hide StartsIn, HeardIn, MidUtterance, BufferFits;
  }

  lemma BufferShrinks(back: Backend, n: Backend)
    requires BufferFits(back) && back.buf != [] && n == back.(buf := back.buf[1..])
    ensures BufferFits(n)
  {
    forall j | 0 <= j < |n.buf|
      ensures n.buf[j] < Following(n, j) <= |n.evs| && n.pub[n.buf[j]]
      ensures forall k :: n.buf[j] < k < Following(n, j) ==> !n.pub[k]
    {
      assert Following(n, j) == Following(back, j + 1);
    }
  }

  lemma OthersTallied(after: nat, c: Call, step: Step)
    requires Enabled(after, c, step) && Tallied(c) && !step.Read? && !step.Dispatch? && !step.Drain?
    ensures Tallied(Next(after, c, step))
  {
    hide DoDispatch, DoDrain, BufferFits, Requested, HeardIn, StartsIn, MidUtterance, Front, SetStage;
  }

  lemma TalliedKept(after: nat, c: Call, step: Step)
    requires Enabled(after, c, step) && Tallied(c)
    ensures Tallied(Next(after, c, step))
  {
    hide Tallied, DoDispatch, DoDrain, DoClaim, DoResolve, DoRunTimer, Observe;
    match step
    case Read(kind) => ReadTallied(after, c, kind);
    case Dispatch(gated) => DispatchTallied(after, c, gated);
    case Drain => DrainTallied(after, c);
    case _ => OthersTallied(after, c, step);
  }

  lemma DispatchTallied(after: nat, c: Call, gated: bool)
    requires Enabled(after, c, Dispatch(gated)) && Tallied(c)
    ensures Tallied(DoDispatch(c, gated))
  {
    DispatchShape(c, gated);
    hide Enabled, DoDispatch, Tallied;
    StepOnTallied(c, DoDispatch(c, gated));
  }

  lemma StepOnTallied(c: Call, n: Call)
    requires Tallied(c) && c.back.dispatched < |c.back.evs|
    requires n.back == c.back.(dispatched := c.back.dispatched + 1)
    requires n.b.drain == c.b.drain && n.pc == c.pc && n.reqAt == c.reqAt
    requires n.b.sink.starts == c.b.sink.starts + One(c.back.evs[c.back.dispatched].SpeechStart?)
    ensures Tallied(n)
  {
    hide HeardIn, StartsIn, MidUtterance, BufferFits, Requested, Front;
    BufferDispatched(c.back, n.back);
    DispatchCounts(c.back);
    if c.b.drain.want {
      RequestDispatched(c.back, n.back, c.reqAt, c.b.drain.wantHeard);
    }
    if c.pc.Have? {
      RequestDispatched(c.back, n.back, c.pc.at, c.pc.tag);
    }
  }

  lemma DispatchShape(c: Call, gated: bool)
    requires Enabled(0, c, Dispatch(gated))
    ensures var n := DoDispatch(c, gated);
            && n.back == c.back.(dispatched := c.back.dispatched + 1)
            && n.b.drain == c.b.drain && n.pc == c.pc && n.reqAt == c.reqAt
            && n.b.sink.starts == c.b.sink.starts + One(c.back.evs[c.back.dispatched].SpeechStart?)
  {
  }

  lemma DispatchCounts(back: Backend)
    requires back.dispatched < |back.evs|
    ensures StartsIn(back.evs, back.dispatched + 1) ==
            StartsIn(back.evs, back.dispatched) + One(back.evs[back.dispatched].SpeechStart?)
  {
  }

  lemma RequestDispatched(back: Backend, n: Backend, at: nat, tag: nat)
    requires Requested(back, at, tag) && n == back.(dispatched := back.dispatched + 1)
    ensures Requested(n, at, tag)
  {
  }

  lemma BufferDispatched(back: Backend, n: Backend)
    requires BufferFits(back) && back.dispatched < |back.evs| && n == back.(dispatched := back.dispatched + 1)
    ensures BufferFits(n) && Front(n) == Front(back)
  {
    assert forall j :: 0 <= j < |n.buf| ==> Following(n, j) == Following(back, j);
  }

  // ---- what a successful claim says --------------------------------------------------------------

  lemma {:induction false} HeardAtMostStarts(evs: seq<Kind>, pub: seq<bool>, i: nat)
    requires i <= |evs| == |pub|
    ensures HeardIn(evs, pub, i) <= StartsIn(evs, i)
    ensures HeardIn(evs, pub, i) == StartsIn(evs, i) <==> forall k :: 0 <= k < i && evs[k].SpeechStart? ==> pub[k]
    decreases i
  {
    if i > 0 {
      HeardAtMostStarts(evs, pub, i - 1);
    }
  }

  lemma {:induction false} StartsGrow(evs: seq<Kind>, i: nat, j: nat)
    requires i <= j <= |evs|
    ensures StartsIn(evs, i) <= StartsIn(evs, j)
    ensures StartsIn(evs, i) == StartsIn(evs, j) <==> forall k :: i <= k < j ==> !evs[k].SpeechStart?
    decreases j
  {
    if i < j {
      StartsGrow(evs, i, j - 1);
    }
  }

  /** No speech start before the request was lost to the drain, and none after it has reached Clear. */
  ghost predicate NothingUnheard(back: Backend, at: nat)
    requires |back.pub| == |back.evs| && at < |back.evs| && back.dispatched <= |back.evs|
  {
    && (forall k :: 0 <= k < at && back.evs[k].SpeechStart? ==> back.pub[k])
    && (forall k :: at < k < back.dispatched ==> !back.evs[k].SpeechStart?)
  }

  lemma TagsAgree(c: Call)
    requires Tallied(c) && c.pc.Have?
    ensures c.b.sink.starts == c.pc.tag <==> NothingUnheard(c.back, c.pc.at)
  {
    var back, at := c.back, c.pc.at;
    HeardAtMostStarts(back.evs, back.pub, at);
    StartsGrow(back.evs, at, back.dispatched);
    hide HeardIn, StartsIn, MidUtterance;
  }

  // ---- wakeups -----------------------------------------------------------------------------------

  /** A wanted mark and an expired count are each signalled, or already being acted on. */
  ghost predicate Awake(c: Call) {
    && (c.b.drain.want && !c.b.count.stopped ==> c.b.sig.dueCh || c.pc == Taking)
    && (c.b.count.due ==> c.b.sig.firedCh || c.pc == Ending)
  }

  lemma AwakeKept(after: nat, c: Call, step: Step)
    requires Enabled(after, c, step) && Owned(after, c) && Awake(c)
    ensures Awake(Next(after, c, step))
  {
    hide Ordered, IssuesFit, AudioFresh, SetStage, NoToolSince;
    match step
    case Dispatch(gated) =>
    case Drain =>
    case TryClaim =>
    case Resolve(k) =>
    case RunTimer(k) =>
    case _ =>
      hide DoDispatch, DoDrain, DoClaim, DoResolve, DoRunTimer;
  }

  // ---- whole calls -------------------------------------------------------------------------------

  /** The flags are what the history says they should be. */
  ghost predicate Recorded(c: Call) { Overtaken(c) && AudioTracked(c) && CountsOn(c) }

  ghost predicate Inv(after: nat, c: Call) {
    Owned(after, c) && Tallied(c) && Awake(c) && RepliesTracked(c) && ClaimsAsked(c) && Recorded(c)
  }

  lemma RecordedKept(after: nat, c: Call, step: Step)
    requires Enabled(after, c, step) && Owned(after, c) && Recorded(c)
    ensures Recorded(Next(after, c, step))
  {
    hide Enabled, Next, Owned, Overtaken, AudioTracked, CountsOn;
    OvertakenKept(after, c, step);
    AudioTrackedKept(after, c, step);
    CountsOnKept(after, c, step);
  }

  lemma OpenedInv(after: nat)
    ensures Inv(after, Opened())
  {
  }

  lemma {:induction false} InvThroughout(after: nat, c: Call, steps: seq<Step>)
    requires Legal(after, c, steps) && Inv(after, c)
    ensures Inv(after, After(after, c, steps))
    decreases |steps|
  {
    hide Enabled, Next, Owned, Tallied, Awake, RepliesTracked, ClaimsAsked, Recorded;
    if steps != [] {
      OwnedKept(after, c, steps[0]);
      TalliedKept(after, c, steps[0]);
      AwakeKept(after, c, steps[0]);
      RepliesKept(after, c, steps[0]);
      AskedKept(after, c, steps[0]);
      RecordedKept(after, c, steps[0]);
      InvThroughout(after, Next(after, c, steps[0]), steps[1..]);
    }
  }

  /** Every claim of a call captured its own generation. */
  lemma ClaimedAtMostOnce(after: nat, steps: seq<Step>, i: nat, j: nat)
    requires Legal(after, Opened(), steps)
    requires i < j < |After(after, Opened(), steps).issues|
    ensures After(after, Opened(), steps).issues[i].gen < After(after, Opened(), steps).issues[j].gen
  {
    OpenedInv(after);
    InvThroughout(after, Opened(), steps);
  }

  /**
   Why a call may end: one claim, asked for between utterances, its mark played since, and silence
   for the whole bound.
   */
  ghost predicate Justified(after: nat, c: Call, i: Issue) {
    && i.stage.Fired?
    && AsksForMark(c.back, i.req)
    && i.at < i.stage.playedAt < |c.hist|
    && c.hist[i.at] == Claimed(i.gen)
    && c.hist[i.stage.playedAt] == CountStarted(i.gen)
    && QuietSince(c.hist, i.at)
    && !ReplyOwed(c.hist[..i.stage.playedAt])
    && NoToolSince(c.hist, i.stage.playedAt)
    && c.now >= i.stage.since + after
  }

  /**
   Whatever the interleaving, when end returns true the latest claim justifies it: it was
   asked for by a response that came while the caller was not mid-utterance; no caller
   speech and no agent audio since it was claimed, no reply owed to a tool call when its mark
   played and no tool call since, and the bound has elapsed since then.
   */
  lemma EndIsJustified(after: nat, steps: seq<Step>)
    requires Legal(after, Opened(), steps)
    requires Enabled(after, After(after, Opened(), steps), TryEnd)
    requires Next(after, After(after, Opened(), steps), TryEnd).pc == Ended
    ensures var c := After(after, Opened(), steps);
            c.issues != [] && Justified(after, c, c.issues[|c.issues| - 1])
  {
    hide Owned, Tallied, Awake, RepliesTracked, ClaimsAsked, Recorded, Justified, DoDispatch, DoDrain, DoClaim,
      DoResolve, DoRunTimer;
    OpenedInv(after);
    InvThroughout(after, Opened(), steps);
    DueIsJustified(after, After(after, Opened(), steps));
  }

  lemma DueIsJustified(after: nat, c: Call)
    requires Owned(after, c) && RepliesTracked(c) && ClaimsAsked(c) && c.b.count.due
    ensures c.issues != [] && Justified(after, c, c.issues[|c.issues| - 1])
  {
    hide ReplyOwed, QuietSince, NoToolSince, AudioFresh, Ordered, AsksForMark;
    assert IssueFits(c, c.issues[|c.issues| - 1]);
  }

  /**
   A claim for the request raised at backend event `at` succeeds exactly when agent audio has
   gone out since the last claim and the last caller speech, no speech start before the
   request was dropped and none after it has reached Clear.
   */
  lemma ClaimSucceedsExactly(after: nat, steps: seq<Step>)
    requires Legal(after, Opened(), steps) && After(after, Opened(), steps).pc.Have?
    ensures var c := After(after, Opened(), steps);
            && Requested(c.back, c.pc.at, c.pc.tag)
            && c.back.dispatched <= |c.back.evs|
            && (Next(after, c, TryClaim).pc == InSlot <==>
                  AudioOpen(c.hist) && NothingUnheard(c.back, c.pc.at))
  {
    OpenedInv(after);
    InvThroughout(after, Opened(), steps);
    ClaimsExactly(after, After(after, Opened(), steps));
    hide Inv, Legal, After, Claims, AudioOpen, NothingUnheard, Requested;
  }

  lemma ClaimsExactly(after: nat, c: Call)
    requires Inv(after, c) && c.pc.Have?
    ensures Requested(c.back, c.pc.at, c.pc.tag) && c.back.dispatched <= |c.back.evs|
    ensures Claims(c.b, c.pc.tag) <==> AudioOpen(c.hist) && NothingUnheard(c.back, c.pc.at)
  {
    TagsAgree(c);
    hide Owned, Awake, NothingUnheard, Requested, AudioOpen, Overtaken, CountsOn, RepliesTracked, ClaimsAsked,
      BufferFits, HeardIn, StartsIn, MidUtterance;
  }

  /** A speech start the buffer had no room for, and the sink has since been told of. */
  ghost predicate StartLost(back: Backend) {
    && |back.pub| == |back.evs| && back.dispatched <= |back.evs|
    && exists k :: 0 <= k < back.dispatched && back.evs[k].SpeechStart? && !back.pub[k]
  }

  lemma BackendExtends(after: nat, c: Call, step: Step)
    requires Enabled(after, c, step) && |c.back.pub| == |c.back.evs|
    ensures var n := Next(after, c, step).back;
            c.back.evs <= n.evs && c.back.pub <= n.pub && c.back.dispatched <= n.dispatched
  {
    hide Observe, Claim, Played, Fire, SetStage;
  }

  lemma LostRefuses(c: Call)
    requires Tallied(c) && StartLost(c.back) && c.pc.Have?
    ensures c.b.sink.starts != c.pc.tag
  {
    TagsAgree(c);
    hide HeardIn, StartsIn, MidUtterance;
  }

  lemma LostStaysLost(after: nat, c: Call, step: Step)
    requires Enabled(after, c, step) && Tallied(c) && StartLost(c.back)
    ensures StartLost(Next(after, c, step).back)
  {
    hide Next, Enabled, Tallied, StartLost;
    FitsBuffer(c);
    BackendExtends(after, c, step);
    TalliedKept(after, c, step);
    FitsBuffer(Next(after, c, step));
    LossCarries(c.back, Next(after, c, step).back);
  }

  lemma LostClaimsNothing(after: nat, c: Call, step: Step)
    requires Enabled(after, c, step) && Tallied(c) && StartLost(c.back)
    ensures |Next(after, c, step).issues| == |c.issues|
  {
    if step.TryClaim? {
      LostRefuses(c);
      hide Tallied, StartLost;
    } else {
      hide Tallied, StartLost, DoClaim, Observe;
    }
  }

  lemma FitsBuffer(c: Call)
    requires Tallied(c)
    ensures |c.back.pub| == |c.back.evs| && c.back.dispatched <= |c.back.evs|
  {
  }

  lemma LossCarries(a: Backend, b: Backend)
    requires StartLost(a) && a.evs <= b.evs && a.pub <= b.pub
    requires a.dispatched <= b.dispatched <= |b.evs| == |b.pub|
    ensures StartLost(b)
  {
    var k :| 0 <= k < a.dispatched && a.evs[k].SpeechStart? && !a.pub[k];
    assert b.evs[k] == a.evs[k] && b.pub[k] == a.pub[k];
  }

  /** One dropped speech start, and no playout mark of the call is ever claimed again. */
  lemma {:induction false} DroppedStartStopsClaims(after: nat, c: Call, steps: seq<Step>)
    requires Legal(after, c, steps) && Tallied(c) && StartLost(c.back)
    ensures |After(after, c, steps).issues| == |c.issues|
    decreases |steps|
  {
    hide Enabled, Next, Tallied, StartLost;
    if steps != [] {
      LostStaysLost(after, c, steps[0]);
      LostClaimsNothing(after, c, steps[0]);
      TalliedKept(after, c, steps[0]);
      DroppedStartStopsClaims(after, Next(after, c, steps[0]), steps[1..]);
    }
  }
}
