/**
 Named timers with generation counters: the run loop's handlers as methods on the facility,
 and the facility interleaved with timer goroutines, a one-slot completion channel and a
 consumer that checks each completion before acting on it.
 */
module TimerFacility {
  import opened Common
  import opened Sizes

  const MAX_SETTLED := 1024

  datatype Completion = Completion(name: string, gen: int)

  /** The state the run loop owns. `cancels` names the goroutine each cancel func belongs to. */
  datatype Facility = Facility(
    nextTimerID: int,
    active: map<string, int>,
    cancels: map<string, int>,
    settled: seq<Completion>)

  /** A missing map entry reads as zero, which is never a generation. */
  function Lookup(m: map<string, int>, name: string): int {
    if name in m then m[name] else 0
  }

  function Arm(f: Facility, name: string): Facility {
    var id := f.nextTimerID + 1;
    f.(nextTimerID := id, active := f.active[name := id], cancels := f.cancels[name := id])
  }

  function Cancel(f: Facility, name: string): Facility {
    f.(active := f.active - {name}, cancels := f.cancels - {name})
  }

  predicate IsCurrent(f: Facility, c: Completion) { Lookup(f.active, c.name) == c.gen }

  /** Drop the oldest settled generations past the bound, and their entries if still theirs. */
  function Evict(f: Facility): Facility
    decreases |f.settled|
  {
    if |f.settled| <= MAX_SETTLED then f
    else
      var oldest := f.settled[0];
      Evict(f.(settled := f.settled[1..],
               active := if Lookup(f.active, oldest.name) == oldest.gen
                         then f.active - {oldest.name} else f.active))
  }

  function Fire(f: Facility, c: Completion): Facility {
    if !IsCurrent(f, c) then f
    else
      var g := Evict(f.(settled := f.settled + [c]));
      g.(cancels := g.cancels - {c.name})
  }

  class RunLoop {
    var nextTimerID: int
    var activeTimers: map<string, int>
    var cancelFuncs: map<string, int>
    var settledTimers: seq<Completion>
    /** Generations whose context has been cancelled. */
    var cancelled: set<int>

    ghost function State(): Facility
      reads this
    {
      Facility(nextTimerID, activeTimers, cancelFuncs, settledTimers)
    }

    constructor ()
      ensures State() == Facility(1, map[], map[], []) && cancelled == {}
    {
      nextTimerID, activeTimers, cancelFuncs, settledTimers, cancelled := 1, map[], map[], [], {};
    }

    method CancelExisting(name: string)
      modifies this`cancelFuncs, this`cancelled
      ensures cancelFuncs == old(cancelFuncs) - {name}
      ensures cancelled == old(cancelled) + Superseded(old(State()), name)
    {
      if name in cancelFuncs {
        cancelled := cancelled + {cancelFuncs[name]};
        cancelFuncs := cancelFuncs - {name};
      }
    }

    method HandleArm(name: string) returns (timerID: int)
      modifies this
      ensures State() == Arm(old(State()), name) && timerID == State().nextTimerID
      ensures cancelled == old(cancelled) + Superseded(old(State()), name)
    {
      CancelExisting(name);
      nextTimerID := nextTimerID + 1;
      timerID := nextTimerID;
      activeTimers := activeTimers[name := timerID];
      cancelFuncs := cancelFuncs[name := timerID];
    }

    method HandleCancel(name: string)
      modifies this
      ensures State() == Cancel(old(State()), name)
      ensures cancelled == old(cancelled) + Superseded(old(State()), name)
    {
      CancelExisting(name);
      activeTimers := activeTimers - {name};
    }

    method HandleIsCurrent(c: Completion) returns (current: bool)
      ensures current == IsCurrent(State(), c)
    {
      current := Lookup(activeTimers, c.name) == c.gen;
    }

    method EvictSettledTimers()
      modifies this`settledTimers, this`activeTimers
      ensures State() == Evict(old(State()))
    {
      while |settledTimers| > MAX_SETTLED
        invariant Evict(State()) == Evict(old(State()))
        invariant nextTimerID == old(nextTimerID) && cancelFuncs == old(cancelFuncs)
        decreases |settledTimers|
      {
        var oldest := settledTimers[0];
        settledTimers := settledTimers[1..];
        if Lookup(activeTimers, oldest.name) == oldest.gen {
          activeTimers := activeTimers - {oldest.name};
        }
      }
    }

    /** Reports whether a completion is owed on the channel. */
    method HandleFireTimerIfCurrent(c: Completion) returns (send: bool)
      modifies this
      ensures State() == Fire(old(State()), c) && send == IsCurrent(old(State()), c)
      ensures cancelled == old(cancelled)
    {
      send := Lookup(activeTimers, c.name) == c.gen;
      if send {
        settledTimers := settledTimers + [c];
        EvictSettledTimers();
        cancelFuncs := cancelFuncs - {c.name};
      }
    }
  }

  /** The goroutine an arm or cancel of this name tells to stop, if it is still running. */
  function Superseded(f: Facility, name: string): set<int> {
    if name in f.cancels then {f.cancels[name]} else {}
  }

  // ---- the facility among its goroutines -----------------------------------------------------

  datatype Op = Armed(gen: int) | Cancelled

  /** A command the consumer hands over, blocked until the run loop takes it. */
  datatype Request = WantArm(name: string) | WantCancel(name: string)

  /**
   `waiting` are the timer goroutines that have not yet delivered their fire command;
   `sending` is a completion the run loop is blocked on; `held` one the consumer has
   received and not yet checked; `asking` a command the consumer is blocked handing over.
   `fired`, `checked`, `latest` and `accepted` are history:
   completions in firing order, how many have been checked, the last command on each name
   to have returned, and which firings (by position in `fired`) were accepted.
   */
  datatype World = World(
    f: Facility, cancelled: set<int>, waiting: map<int, string>,
    sending: Option<Completion>, channel: Option<Completion>, held: Option<Completion>,
    asking: Option<Request>,
    fired: seq<Completion>, checked: nat, latest: map<string, Op>, accepted: seq<nat>)

  datatype Step =
    | ArmStep(name: string)   // a command of some other goroutine, taken
    | CancelStep(name: string)
    | AskStep(req: Request)   // the consumer issues a command, and is busy until it is taken
    | TakeStep                // the run loop takes it
    | FireStep(gen: int)      // a goroutine's duration elapsed and its command was taken
    | ExitStep(gen: int)      // a cancelled goroutine leaves without a command
    | SendStep                // the blocked completion enters the channel
    | ReceiveStep             // the consumer takes it out
    | CheckStep               // the consumer asks IsCurrent and acts on the answer

  /** Commands are taken only while the run loop is not blocked on a completion. */
  predicate Enabled(w: World, s: Step) {
    match s
    case ArmStep(_) => w.sending.None?
    case CancelStep(_) => w.sending.None?
    case AskStep(_) => w.held.None? && w.asking.None?
    case TakeStep => w.sending.None? && w.asking.Some?
    case FireStep(g) => w.sending.None? && g in w.waiting
    case ExitStep(g) => g in w.waiting && g in w.cancelled
    case SendStep => w.sending.Some? && w.channel.None?
    case ReceiveStep => w.channel.Some? && w.held.None? && w.asking.None?
    case CheckStep => w.sending.None? && w.held.Some?
  }

  function Command(w: World, r: Request): World {
    match r
    case WantArm(name) =>
      var g := Arm(w.f, name);
      w.(f := g, cancelled := w.cancelled + Superseded(w.f, name),
         waiting := w.waiting[g.nextTimerID := name], latest := w.latest[name := Armed(g.nextTimerID)])
    case WantCancel(name) =>
      w.(f := Cancel(w.f, name), cancelled := w.cancelled + Superseded(w.f, name),
         latest := w.latest[name := Cancelled])
  }

  function Next(w: World, s: Step): World
    requires Enabled(w, s)
  {
    match s
    case ArmStep(name) => Command(w, WantArm(name))
    case CancelStep(name) => Command(w, WantCancel(name))
    case AskStep(req) => w.(asking := Some(req))
    case TakeStep => Command(w.(asking := None), w.asking.value)
    case FireStep(gen) =>
      var c := Completion(w.waiting[gen], gen);
      var v := w.(f := Fire(w.f, c), waiting := w.waiting - {gen});
      if IsCurrent(w.f, c) then v.(sending := Some(c), fired := w.fired + [c]) else v
    case ExitStep(gen) => w.(waiting := w.waiting - {gen})
    case SendStep => w.(channel := w.sending, sending := None)
    case ReceiveStep => w.(held := w.channel, channel := None)
    case CheckStep =>
      var c := w.held.value;
      w.(held := None, checked := w.checked + 1,
         accepted := if IsCurrent(w.f, c) then w.accepted + [w.checked] else w.accepted)
  }

  const INITIAL := World(Facility(1, map[], map[], []), {}, map[], None, None, None, None, [], 0, map[], [])

  function AsSeq(o: Option<Completion>): seq<Completion> {
    if o.Some? then [o.value] else []
  }

  predicate IsLatest(w: World, c: Completion) {
    c.name in w.latest && w.latest[c.name] == Armed(c.gen)
  }

  /** Completions travel in firing order, and at most three are unchecked. */
  ghost predicate PipelineInOrder(w: World) {
    w.checked <= |w.fired| &&
    w.fired[w.checked..] == AsSeq(w.held) + AsSeq(w.channel) + AsSeq(w.sending)
  }

  /** The settled queue is the last MAX_SETTLED firings. */
  ghost predicate SettledIsSuffix(w: World) {
    && |w.f.settled| <= MAX_SETTLED && |w.f.settled| <= |w.fired|
    && w.f.settled == w.fired[|w.fired| - |w.f.settled|..]
    && (|w.f.settled| < MAX_SETTLED ==> w.f.settled == w.fired)
  }

  ghost predicate DistinctGens(cs: seq<Completion>) {
    forall i, j :: 0 <= i < j < |cs| ==> cs[i].gen != cs[j].gen
  }

  /** A generation is in exactly one place, and is never reused. */
  ghost predicate GenerationsUnique(w: World) {
    && w.f.nextTimerID >= 1
    && (forall g :: g in w.waiting ==> 2 <= g <= w.f.nextTimerID)
    && (forall i :: 0 <= i < |w.fired| ==> 2 <= w.fired[i].gen <= w.f.nextTimerID && w.fired[i].gen !in w.waiting)
    && DistinctGens(w.fired)
    && (forall n :: n in w.latest && w.latest[n].Armed? ==> 2 <= w.latest[n].gen <= w.f.nextTimerID)
  }

  /** An active entry is its name's latest arm, and is still waiting or not yet evicted. */
  ghost predicate EntryFits(w: World, n: string)
    requires n in w.f.active
  {
    var c := Completion(n, w.f.active[n]);
    IsLatest(w, c) && ((c.gen in w.waiting && w.waiting[c.gen] == n) || c in w.f.settled)
  }

  ghost predicate WaitingCurrent(w: World) {
    forall g :: g in w.waiting && IsLatest(w, Completion(w.waiting[g], g)) ==>
      IsCurrent(w.f, Completion(w.waiting[g], g))
  }

  ghost predicate SettledCurrent(w: World) {
    forall c :: c in w.f.settled && IsLatest(w, c) ==> IsCurrent(w.f, c)
  }

  /** The active map is the latest arms, minus those whose firing has been evicted. */
  ghost predicate ActiveIsLatest(w: World) {
    && (forall n :: n in w.f.active ==> EntryFits(w, n))
    && WaitingCurrent(w)
    && SettledCurrent(w)
  }

  /** Firings are accepted in order, each at most once, and only once checked. */
  ghost predicate AcceptedOnce(w: World) {
    && (forall i :: 0 <= i < |w.accepted| ==> w.accepted[i] < w.checked)
    && (forall i, j :: 0 <= i < j < |w.accepted| ==> w.accepted[i] < w.accepted[j])
  }

  /** A cancel func belongs to its name's latest arm, and a cancelled generation to none. */
  ghost predicate CancelsFit(w: World) {
    && (forall n :: n in w.f.cancels ==> IsLatest(w, Completion(n, w.f.cancels[n])))
    && (forall g :: g in w.cancelled ==> g <= w.f.nextTimerID)
    && (forall n :: n in w.latest && w.latest[n].Armed? ==> w.latest[n].gen !in w.cancelled)
    && (forall m, n :: m in w.latest && n in w.latest && m != n && w.latest[m].Armed? ==> w.latest[m] != w.latest[n])
  }

  ghost predicate Inv(w: World) {
    PipelineInOrder(w) && SettledIsSuffix(w) && GenerationsUnique(w) && ActiveIsLatest(w)
    && CancelsFit(w) && AcceptedOnce(w)
  }

  lemma InitialInv()
    ensures Inv(INITIAL)
  {
  }

  /** Firing appends to the settled queue and drops at most the one oldest entry. */
  lemma EvictOne(f: Facility)
    requires |f.settled| <= MAX_SETTLED + 1
    ensures var g := Evict(f);
            if |f.settled| <= MAX_SETTLED then g == f
            else g == f.(settled := f.settled[1..],
                         active := if Lookup(f.active, f.settled[0].name) == f.settled[0].gen
                                   then f.active - {f.settled[0].name} else f.active)
  {
  }

  // ---- preservation ------------------------------------------------------------------------

  /** The two steps of the consumer handing a command over. */
  predicate HandsOver(s: Step) { s.AskStep? || s.TakeStep? }

  lemma AskingKeepsActive(w: World, u: World)
    requires ActiveIsLatest(w) && u == w.(asking := u.asking)
    ensures ActiveIsLatest(u)
  {
    hide IsCurrent;
    forall n | n in u.f.active
      ensures EntryFits(u, n)
    {
      assert EntryFits(w, n);
    }
    forall c: Completion
      ensures IsLatest(u, c) == IsLatest(w, c)
    {
    }
    hide EntryFits, IsLatest;
  }

  lemma AskingKeepsCancels(w: World, u: World)
    requires CancelsFit(w) && u == w.(asking := u.asking)
    ensures CancelsFit(u)
  {
  }

  lemma AskingKeepsGenerations(w: World, u: World)
    requires GenerationsUnique(w) && u == w.(asking := u.asking)
    ensures GenerationsUnique(u)
  {
    hide DistinctGens;
  }

  lemma AskingKeepsPipeline(w: World, u: World)
    requires PipelineInOrder(w) && SettledIsSuffix(w) && AcceptedOnce(w) && u == w.(asking := u.asking)
    ensures PipelineInOrder(u) && SettledIsSuffix(u) && AcceptedOnce(u)
  {
  }

  /** No part of the invariant looks at a command still being handed over. */
  lemma AskingIrrelevant(w: World, u: World)
    requires Inv(w) && u == w.(asking := u.asking)
    ensures Inv(u)
  {
    hide PipelineInOrder, SettledIsSuffix, AcceptedOnce, GenerationsUnique, ActiveIsLatest, CancelsFit;
    AskingKeepsPipeline(w, u);
    AskingKeepsGenerations(w, u);
    AskingKeepsActive(w, u);
    AskingKeepsCancels(w, u);
  }

  lemma PipelineKeeps(w: World, s: Step)
    requires PipelineInOrder(w) && AcceptedOnce(w) && Enabled(w, s) && !HandsOver(s)
    ensures PipelineInOrder(Next(w, s)) && AcceptedOnce(Next(w, s))
  {
    hide Arm, Cancel, Fire, IsCurrent, Superseded;
    match s
    case FireStep(gen) => FirePipelined(w, gen);
    case SendStep =>
    case ReceiveStep =>
    case CheckStep => CheckPipelined(w);
    case _ =>
  }

  lemma FirePipelined(w: World, gen: int)
    requires PipelineInOrder(w) && AcceptedOnce(w) && Enabled(w, FireStep(gen))
    ensures PipelineInOrder(Next(w, FireStep(gen))) && AcceptedOnce(Next(w, FireStep(gen)))
  {
    hide Fire, IsCurrent;
    var v := Next(w, FireStep(gen));
    if v.sending.Some? {
      AppendedTail(w.fired, w.checked, v.sending.value);
      Joined(AsSeq(w.held), AsSeq(w.channel), [v.sending.value]);
      assert AsSeq(w.held) + AsSeq(w.channel) + AsSeq(w.sending) == AsSeq(w.held) + AsSeq(w.channel);
    }
  }

  lemma AppendedTail(fired: seq<Completion>, k: nat, c: Completion)
    requires k <= |fired|
    ensures (fired + [c])[k..] == fired[k..] + [c]
  {
  }

  lemma CheckPipelined(w: World)
    requires PipelineInOrder(w) && AcceptedOnce(w) && Enabled(w, CheckStep)
    ensures PipelineInOrder(Next(w, CheckStep)) && AcceptedOnce(Next(w, CheckStep))
  {
    hide IsCurrent;
    var v := Next(w, CheckStep);
    assert v.fired[v.checked..] == w.fired[w.checked..][1..];
  }

  lemma SettledKeeps(w: World, s: Step)
    requires SettledIsSuffix(w) && Enabled(w, s) && !HandsOver(s)
    ensures SettledIsSuffix(Next(w, s))
  {
    hide Evict, Fire;
    if s.FireStep? {
      FireSettles(w, s.gen);
    }
  }

  lemma FireSettles(w: World, gen: int)
    requires SettledIsSuffix(w) && Enabled(w, FireStep(gen))
    ensures SettledIsSuffix(Next(w, FireStep(gen)))
  {
    FireShape(w, gen);
    hide Next, IsCurrent;
    var n, k := |w.fired|, |w.f.settled|;
    AppendedTail(w.fired, n - k, Completion(w.waiting[gen], gen));
  }

  /** What a firing does to the two queues. */
  lemma FireShape(w: World, gen: int)
    requires Enabled(w, FireStep(gen)) && |w.f.settled| <= MAX_SETTLED
    ensures var v, c := Next(w, FireStep(gen)), Completion(w.waiting[gen], gen);
            var queue := w.f.settled + [c];
            if IsCurrent(w.f, c)
            then v.fired == w.fired + [c] && v.f.settled == if |queue| <= MAX_SETTLED then queue else queue[1..]
            else v.fired == w.fired && v.f.settled == w.f.settled
  {
    EvictOne(w.f.(settled := w.f.settled + [Completion(w.waiting[gen], gen)]));
    hide Evict;
  }

  lemma GenerationsKeep(w: World, s: Step)
    requires GenerationsUnique(w) && Enabled(w, s) && !HandsOver(s)
    ensures GenerationsUnique(Next(w, s))
  {
    hide Evict, IsCurrent;
    if s.FireStep? {
      EvictKeepsCounters(w.f.(settled := w.f.settled + [Completion(w.waiting[s.gen], s.gen)]));
    }
  }

  lemma {:induction false} EvictKeepsCounters(f: Facility)
    ensures Evict(f).nextTimerID == f.nextTimerID && Evict(f).cancels == f.cancels
    decreases |f.settled|
  {
    if |f.settled| > MAX_SETTLED {
      var oldest := f.settled[0];
      EvictKeepsCounters(f.(settled := f.settled[1..],
                            active := if Lookup(f.active, oldest.name) == oldest.gen
                                      then f.active - {oldest.name} else f.active));
    }
  }

  lemma CancelsKeep(w: World, s: Step)
    requires GenerationsUnique(w) && CancelsFit(w) && Enabled(w, s) && !HandsOver(s)
    ensures CancelsFit(Next(w, s))
  {
    hide Evict, IsCurrent;
    if s.FireStep? {
      EvictKeepsCounters(w.f.(settled := w.f.settled + [Completion(w.waiting[s.gen], s.gen)]));
    }
  }

  lemma SettledAreOld(w: World, c: Completion)
    requires SettledIsSuffix(w) && GenerationsUnique(w) && c in w.f.settled
    ensures c.gen !in w.waiting && c.gen <= w.f.nextTimerID
  {
    hide DistinctGens;
    var i :| 0 <= i < |w.fired| && w.fired[i] == c;
  }

  lemma ArmKeepsEntries(w: World, name: string)
    requires (forall n :: n in w.f.active ==> EntryFits(w, n)) && GenerationsUnique(w) && w.sending.None?
    ensures var v := Next(w, ArmStep(name)); forall n :: n in v.f.active ==> EntryFits(v, n)
  {
    var v := Next(w, ArmStep(name));
    hide DistinctGens;
    forall n | n in v.f.active
      ensures EntryFits(v, n)
    {
      assert n != name ==> EntryFits(w, n);
    }
  }

  lemma ArmKeepsCurrent(w: World, name: string, c: Completion)
    requires w.sending.None? && c.gen <= w.f.nextTimerID
    requires IsLatest(w, c) ==> IsCurrent(w.f, c)
    ensures var v := Next(w, ArmStep(name)); IsLatest(v, c) ==> IsCurrent(v.f, c)
  {
  }

  lemma ArmShape(w: World, name: string)
    requires w.sending.None?
    ensures var v := Next(w, ArmStep(name));
            var id := w.f.nextTimerID + 1;
            v.f.settled == w.f.settled && v.waiting == w.waiting[id := name]
            && IsCurrent(v.f, Completion(name, id))
  {
  }

  lemma ActiveKeepsArm(w: World, name: string)
    requires ActiveIsLatest(w) && GenerationsUnique(w) && SettledIsSuffix(w) && w.sending.None?
    ensures ActiveIsLatest(Next(w, ArmStep(name)))
  {
    hide Next, EntryFits, SettledIsSuffix, IsLatest, IsCurrent, DistinctGens;
    var v := Next(w, ArmStep(name));
    ArmShape(w, name);
    ArmKeepsEntries(w, name);
    forall c | c in v.f.settled && IsLatest(v, c)
      ensures IsCurrent(v.f, c)
    {
      SettledAreOld(w, c);
      ArmKeepsCurrent(w, name, c);
    }
    forall g | g in v.waiting && IsLatest(v, Completion(v.waiting[g], g))
      ensures IsCurrent(v.f, Completion(v.waiting[g], g))
    {
      if g != w.f.nextTimerID + 1 {
        assert g in w.waiting;
        ArmKeepsCurrent(w, name, Completion(w.waiting[g], g));
      }
    }
  }

  lemma ActiveKeepsCancel(w: World, name: string)
    requires ActiveIsLatest(w) && w.sending.None?
    ensures ActiveIsLatest(Next(w, CancelStep(name)))
  {
    var v := Next(w, CancelStep(name));
    forall n | n in v.f.active
      ensures EntryFits(v, n)
    {
      assert EntryFits(w, n);
    }
  }

  /** After an eviction no later entry shares the evicted generation. */
  lemma EvictedIsGone(w: World, c: Completion, d: Completion)
    requires SettledIsSuffix(w) && GenerationsUnique(w) && |w.f.settled| == MAX_SETTLED
    requires c.gen in w.waiting && d in (w.f.settled + [c])[1..]
    ensures d.gen != w.f.settled[0].gen
  {
    var queue := w.f.settled + [c];
    var k := |w.fired| - |w.f.settled|;
    var j :| 1 <= j < |queue| && queue[j] == d;
    assert w.f.settled[0] == w.fired[k];
    if j < MAX_SETTLED {
      assert w.fired[k + j] == d;
    }
  }

  lemma ActiveKeepsFire(w: World, gen: int)
    requires ActiveIsLatest(w) && GenerationsUnique(w) && SettledIsSuffix(w) && Enabled(w, FireStep(gen))
    ensures ActiveIsLatest(Next(w, FireStep(gen)))
  {
    var c := Completion(w.waiting[gen], gen);
    if IsCurrent(w.f, c) {
      if |w.f.settled| < MAX_SETTLED {
        FireWithoutEviction(w, gen);
      } else {
        FireWithEviction(w, gen);
      }
    } else {
      FireStale(w, gen);
    }
  }

  lemma FireStale(w: World, gen: int)
    requires ActiveIsLatest(w) && Enabled(w, FireStep(gen)) && !IsCurrent(w.f, Completion(w.waiting[gen], gen))
    ensures ActiveIsLatest(Next(w, FireStep(gen)))
  {
    hide Evict;
    var v := Next(w, FireStep(gen));
    forall n | n in v.f.active
      ensures EntryFits(v, n)
    {
      assert EntryFits(w, n);
    }
  }

  lemma FireWithoutEviction(w: World, gen: int)
    requires ActiveIsLatest(w) && Enabled(w, FireStep(gen)) && |w.f.settled| < MAX_SETTLED
    requires IsCurrent(w.f, Completion(w.waiting[gen], gen))
    ensures ActiveIsLatest(Next(w, FireStep(gen)))
  {
    var v := Next(w, FireStep(gen));
    EvictOne(w.f.(settled := w.f.settled + [Completion(w.waiting[gen], gen)]));
    hide Evict;
    forall n | n in v.f.active
      ensures EntryFits(v, n)
    {
      assert EntryFits(w, n);
    }
  }

  /** What a firing leaves once the settled queue is full. */
  lemma EvictionShape(w: World, gen: int)
    requires Enabled(w, FireStep(gen)) && |w.f.settled| == MAX_SETTLED
    requires IsCurrent(w.f, Completion(w.waiting[gen], gen))
    ensures var v, oldest := Next(w, FireStep(gen)), w.f.settled[0];
            && v.f.settled == (w.f.settled + [Completion(w.waiting[gen], gen)])[1..]
            && v.waiting == w.waiting - {gen} && v.latest == w.latest
            && v.f.active == if Lookup(w.f.active, oldest.name) == oldest.gen then w.f.active - {oldest.name}
                             else w.f.active
  {
    var queue := w.f.settled + [Completion(w.waiting[gen], gen)];
    EvictOne(w.f.(settled := queue));
    assert queue[0] == w.f.settled[0];
    hide Evict;
  }

  /** The queue keeps every completion but the oldest. */
  lemma QueueKeeps(settled: seq<Completion>, c: Completion, e: Completion)
    requires settled != [] && (e == c || (e in settled && e != settled[0]))
    ensures e in (settled + [c])[1..]
  {
    var queue := settled + [c];
    var i :| 0 < i < |queue| && queue[i] == e by {
      if e == c {
        assert queue[|settled|] == e;
      } else {
        var k :| 0 <= k < |settled| && settled[k] == e;
        assert queue[k] == e;
      }
    }
    assert queue[1..][i - 1] == e;
  }

  lemma EvictionKeepsEntry(w: World, gen: int, n: string)
    requires ActiveIsLatest(w) && Enabled(w, FireStep(gen)) && |w.f.settled| == MAX_SETTLED
    requires IsCurrent(w.f, Completion(w.waiting[gen], gen)) && n in Next(w, FireStep(gen)).f.active
    ensures EntryFits(Next(w, FireStep(gen)), n)
  {
    EvictionShape(w, gen);
    hide Next, WaitingCurrent, SettledCurrent;
    assert EntryFits(w, n);
    var c, e := Completion(w.waiting[gen], gen), Completion(n, w.f.active[n]);
    if e.gen == gen {
      assert e in w.f.settled || e == c;
    }
    if e == c || (e in w.f.settled && e != w.f.settled[0]) {
      QueueKeeps(w.f.settled, c, e);
    }
  }

  lemma FireWithEviction(w: World, gen: int)
    requires ActiveIsLatest(w) && GenerationsUnique(w) && SettledIsSuffix(w) && Enabled(w, FireStep(gen))
    requires IsCurrent(w.f, Completion(w.waiting[gen], gen)) && |w.f.settled| == MAX_SETTLED
    ensures ActiveIsLatest(Next(w, FireStep(gen)))
  {
    EvictionShape(w, gen);
    hide Next, SettledIsSuffix, GenerationsUnique, EntryFits;
    var v, c, oldest := Next(w, FireStep(gen)), Completion(w.waiting[gen], gen), w.f.settled[0];
    forall n | n in v.f.active
      ensures EntryFits(v, n)
    {
      EvictionKeepsEntry(w, gen, n);
    }
    forall d | d in v.f.settled && IsLatest(v, d)
      ensures IsCurrent(v.f, d)
    {
      EvictedIsGone(w, c, d);
      assert d == c || d in w.f.settled;
    }
    SettledAreOld(w, oldest);
  }

  lemma ActiveKeepsExit(w: World, gen: int)
    requires ActiveIsLatest(w) && CancelsFit(w) && Enabled(w, ExitStep(gen))
    ensures ActiveIsLatest(Next(w, ExitStep(gen)))
  {
  }

  lemma ActiveKeeps(w: World, s: Step)
    requires Inv(w) && Enabled(w, s) && !HandsOver(s)
    ensures ActiveIsLatest(Next(w, s))
  {
    match s
    case ArmStep(name) => ActiveKeepsArm(w, name);
    case CancelStep(name) => ActiveKeepsCancel(w, name);
    case FireStep(gen) => ActiveKeepsFire(w, gen);
    case ExitStep(gen) => ActiveKeepsExit(w, gen);
    case _ =>
  }

  lemma InvPreserved(w: World, s: Step)
    requires Inv(w) && Enabled(w, s)
    ensures Inv(Next(w, s))
  {
    hide Command, Enabled, PipelineInOrder, AcceptedOnce, SettledIsSuffix, GenerationsUnique, ActiveIsLatest, CancelsFit;
    if s.AskStep? {
      AskingIrrelevant(w, Next(w, s));
    } else {
      TakenEnabled(w, s);
      // A command the consumer hands over does what the same command does from elsewhere.
      var u := if s.TakeStep? then w.(asking := None) else w;
      var x := if s.TakeStep? then Taken(w.asking.value) else s;
      assert Next(w, s) == Next(u, x);
      AskingIrrelevant(w, u);
      PipelineKeeps(u, x);
      SettledKeeps(u, x);
      GenerationsKeep(u, x);
      CancelsKeep(u, x);
      ActiveKeeps(u, x);
    }
  }

  function Taken(r: Request): Step { if r.WantArm? then ArmStep(r.name) else CancelStep(r.name) }

  lemma TakenEnabled(w: World, s: Step)
    requires Enabled(w, s)
    ensures s.TakeStep? ==> w.asking.Some? && Enabled(w.(asking := None), Taken(w.asking.value))
  {
  }

  // ---- whole runs --------------------------------------------------------------------------

  ghost predicate Legal(w: World, steps: seq<Step>)
    decreases |steps|
  {
    steps == [] || (Enabled(w, steps[0]) && Legal(Next(w, steps[0]), steps[1..]))
  }

  ghost function After(w: World, steps: seq<Step>): World
    requires Legal(w, steps)
    decreases |steps|
  {
    if steps == [] then w else After(Next(w, steps[0]), steps[1..])
  }

  /** What every enabled step keeps, every legal run keeps. */
  lemma {:induction false} KeptThroughout(keeps: World -> bool, w: World, steps: seq<Step>)
    requires forall u: World, s: Step :: keeps(u) && Enabled(u, s) ==> keeps(Next(u, s))
    requires keeps(w) && Legal(w, steps)
    ensures keeps(After(w, steps))
    decreases |steps|
  {
    hide Next, Enabled;
    if steps != [] {
      KeptThroughout(keeps, Next(w, steps[0]), steps[1..]);
    }
  }

  /** The worlds a run from the start can reach. */
  ghost predicate Reached(w: World) {
    exists steps :: Legal(INITIAL, steps) && After(INITIAL, steps) == w
  }

  lemma ReachedInv(w: World)
    requires Reached(w)
    ensures Inv(w)
  {
    hide Next, Enabled, Inv;
    var steps :| Legal(INITIAL, steps) && After(INITIAL, steps) == w;
    InitialInv();
    forall u: World, s: Step | Inv(u) && Enabled(u, s)
      ensures Inv(Next(u, s))
    {
      InvPreserved(u, s);
    }
    KeptThroughout(u => Inv(u), INITIAL, steps);
  }

  /**
   The staleness check is exact in every interleaving: a completion is accepted if and only
   if the last command on its name to have returned is the very arm that produced it. No
   cancelled or superseded generation is acted on, and eviction never makes a genuine
   firing stale.
   */
  lemma CheckIsExact(steps: seq<Step>)
    requires Legal(INITIAL, steps) && Enabled(After(INITIAL, steps), CheckStep)
    ensures var w := After(INITIAL, steps);
            IsCurrent(w.f, w.held.value) <==> IsLatest(w, w.held.value)
  {
    ReachedInv(After(INITIAL, steps));
    HeldIsSettled(After(INITIAL, steps));
    CurrentIsLatest(After(INITIAL, steps));
  }

  lemma HeldIsSettled(w: World)
    requires Inv(w) && w.held.Some?
    ensures w.held.value in w.f.settled && w.held.value.gen >= 2
  {
    hide ActiveIsLatest, DistinctGens, CancelsFit, AcceptedOnce;
    assert w.fired[w.checked] == w.held.value;
    var k := |w.fired| - |w.f.settled|;
    assert w.checked >= k;
    assert w.f.settled[w.checked - k] == w.held.value;
  }

  lemma CurrentIsLatest(w: World)
    requires Inv(w) && w.held.Some? && w.held.value in w.f.settled && w.held.value.gen >= 2
    ensures IsCurrent(w.f, w.held.value) <==> IsLatest(w, w.held.value)
  {
    hide PipelineInOrder, SettledIsSuffix, GenerationsUnique, CancelsFit, AcceptedOnce;
    var c := w.held.value;
    if IsCurrent(w.f, c) {
      assert EntryFits(w, c.name);
    }
  }

  /** No generation is ever accepted twice, and completions are checked in firing order. */
  lemma AcceptedAtMostOnce(steps: seq<Step>, i: nat, j: nat)
    requires Legal(INITIAL, steps) && i < j < |After(INITIAL, steps).accepted|
    ensures var w := After(INITIAL, steps);
            w.accepted[i] < w.accepted[j] < |w.fired|
            && w.fired[w.accepted[i]].gen != w.fired[w.accepted[j]].gen
  {
    hide Next, Enabled, ActiveIsLatest, CancelsFit, SettledIsSuffix;
    ReachedInv(After(INITIAL, steps));
  }

  function Names(q: seq<Completion>): set<string> { set c | c in q :: c.name }

  lemma {:induction false} NamesBounded(q: seq<Completion>)
    ensures |Names(q)| <= |q|
    decreases |q|
  {
    if q != [] {
      NamesBounded(q[1..]);
      SubsetSize(Names(q), Names(q[1..]) + {q[0].name});
    }
  }

  /** The timer goroutines nobody has told to stop. */
  function Running(w: World): set<int> { w.waiting.Keys - w.cancelled }

  /** Every cancel func is a running goroutine's, and every running goroutine has one. */
  ghost predicate CancelsRun(w: World) {
    && (forall n :: n in w.f.cancels ==> w.f.cancels[n] in Running(w) && w.waiting[w.f.cancels[n]] == n)
    && (forall g :: g in Running(w) ==> w.waiting[g] in w.f.cancels && w.f.cancels[w.waiting[g]] == g)
  }

  lemma FireLeaves(w: World, gen: int)
    requires Enabled(w, FireStep(gen))
    ensures var v, c := Next(w, FireStep(gen)), Completion(w.waiting[gen], gen);
            && v.waiting == w.waiting - {gen} && v.cancelled == w.cancelled
            && v.f.cancels == if IsCurrent(w.f, c) then w.f.cancels - {c.name} else w.f.cancels
  {
    EvictKeepsCounters(w.f.(settled := w.f.settled + [Completion(w.waiting[gen], gen)]));
    hide Evict;
  }

  /** A goroutine that comes due is current exactly when it was still running. */
  lemma CurrentIsRunning(w: World, gen: int)
    requires ActiveIsLatest(w) && CancelsFit(w) && GenerationsUnique(w) && CancelsRun(w) && gen in w.waiting
    ensures IsCurrent(w.f, Completion(w.waiting[gen], gen)) <==> gen in Running(w)
  {
    hide DistinctGens, SettledCurrent;
    var c := Completion(w.waiting[gen], gen);
    if IsCurrent(w.f, c) {
      assert gen >= 2;
      assert EntryFits(w, c.name);
    }
  }

  lemma FireCancels(w: World, gen: int)
    requires ActiveIsLatest(w) && CancelsFit(w) && GenerationsUnique(w) && CancelsRun(w) && Enabled(w, FireStep(gen))
    ensures CancelsRun(Next(w, FireStep(gen)))
  {
    FireLeaves(w, gen);
    CurrentIsRunning(w, gen);
    hide Next, IsCurrent, ActiveIsLatest, CancelsFit, GenerationsUnique;
  }

  lemma ArmCancels(w: World, name: string)
    requires CancelsFit(w) && GenerationsUnique(w) && CancelsRun(w) && Enabled(w, ArmStep(name))
    ensures CancelsRun(Next(w, ArmStep(name)))
  {
    hide DistinctGens, IsLatest;
    assert w.f.nextTimerID + 1 !in w.waiting && w.f.nextTimerID + 1 !in w.cancelled;
  }

  lemma CancelCancels(w: World, name: string)
    requires CancelsRun(w) && Enabled(w, CancelStep(name))
    ensures CancelsRun(Next(w, CancelStep(name)))
  {
  }

  lemma OtherCancels(w: World, s: Step)
    requires CancelsFit(w) && GenerationsUnique(w) && CancelsRun(w) && Enabled(w, s)
    requires !s.FireStep? && !HandsOver(s)
    ensures CancelsRun(Next(w, s))
  {
    hide Command, GenerationsUnique, CancelsFit, IsCurrent;
    match s
    case ArmStep(name) => ArmCancels(w, name);
    case CancelStep(name) => CancelCancels(w, name);
    case _ =>
  }

  lemma TakeCancels(w: World)
    requires CancelsFit(w) && GenerationsUnique(w) && CancelsRun(w) && Enabled(w, TakeStep)
    ensures CancelsRun(Next(w, TakeStep))
  {
    hide Command, GenerationsUnique, CancelsFit;
    var u := w.(asking := None);
    AskingKeepsCancels(w, u);
    AskingKeepsGenerations(w, u);
    OtherCancels(u, Taken(w.asking.value));
  }

  /** No cancel func is leaked: over any run they are exactly those of the timers still running and not told to stop. */
  lemma CancelFuncsAreRunning(steps: seq<Step>)
    requires Legal(INITIAL, steps)
    ensures CancelsRun(After(INITIAL, steps))
  {
    InitialInv();
    InitialRun();
    hide Legal, After, Next, Enabled, Command, CancelsRun, PipelineInOrder, AcceptedOnce, SettledIsSuffix,
      GenerationsUnique, ActiveIsLatest, CancelsFit;
    forall u: World, s: Step | Inv(u) && CancelsRun(u) && Enabled(u, s)
      ensures Inv(Next(u, s)) && CancelsRun(Next(u, s))
    {
      InvPreserved(u, s);
      match s
      case FireStep(gen) => FireCancels(u, gen);
      case TakeStep => TakeCancels(u);
      case AskStep(_) => AskCancels(u, s);
      case _ => OtherCancels(u, s);
    }
    KeptThroughout(u => Inv(u) && CancelsRun(u), INITIAL, steps);
  }

  lemma AskCancels(w: World, s: Step)
    requires CancelsRun(w) && Enabled(w, s) && s.AskStep?
    ensures CancelsRun(Next(w, s))
  {
  }

  lemma InitialRun()
    ensures CancelsRun(INITIAL)
  {
  }

  /** A timer that comes due delivers exactly when its arm is the last command on its name to have returned. */
  lemma FiringIsExact(steps: seq<Step>, gen: int)
    requires Legal(INITIAL, steps) && Enabled(After(INITIAL, steps), FireStep(gen))
    ensures var w := After(INITIAL, steps);
            var c := Completion(w.waiting[gen], gen);
            Next(w, FireStep(gen)).sending == if IsLatest(w, c) then Some(c) else None
  {
    var w := After(INITIAL, steps);
    ReachedInv(w);
    DueIsLatest(w, gen);
    hide Evict, Inv;
  }

  lemma DueIsLatest(w: World, gen: int)
    requires Inv(w) && gen in w.waiting
    ensures IsCurrent(w.f, Completion(w.waiting[gen], gen)) <==> IsLatest(w, Completion(w.waiting[gen], gen))
  {
    hide PipelineInOrder, SettledIsSuffix, CancelsFit, AcceptedOnce, DistinctGens;
    var c := Completion(w.waiting[gen], gen);
    if IsCurrent(w.f, c) {
      assert gen >= 2;
      assert EntryFits(w, c.name);
    }
  }

  /** The active map never outgrows the timers still running by more than the settled bound. */
  lemma ActiveIsBounded(steps: seq<Step>)
    requires Legal(INITIAL, steps)
    ensures var w := After(INITIAL, steps); |w.f.active| <= |Running(w)| + MAX_SETTLED
  {
    ReachedInv(After(INITIAL, steps));
    var w := After(INITIAL, steps);
    EntriesCovered(w);
  }

  lemma EntriesCovered(w: World)
    requires ActiveIsLatest(w) && CancelsFit(w) && |w.f.settled| <= MAX_SETTLED
    ensures |w.f.active| <= |Running(w)| + MAX_SETTLED
  {
    var running, done := Image(w.waiting, Running(w)), Names(w.f.settled);
    forall n | n in w.f.active.Keys
      ensures n in running + done
    {
      assert EntryFits(w, n);
    }
    SubsetSize(w.f.active.Keys, running + done);
    ImageBounded(w.waiting, Running(w));
    NamesBounded(w.f.settled);
    UnionBounded(running, done);
  }

  lemma UnionBounded(a: set<string>, b: set<string>)
    ensures |a + b| <= |a| + |b|
  {
  }

  // ---- progress, and where it stops ----------------------------------------------------------

  /** The consumer is waiting for the run loop: to check a completion, or to take a command. */
  predicate ConsumerBusy(w: World) { w.held.Some? || w.asking.Some? }

  /** The run loop waits for the channel, the channel for the consumer, the consumer for the run loop. */
  predicate Wedged(w: World) { ConsumerBusy(w) && w.channel.Some? && w.sending.Some? }

  predicate Moves(w: World) {
    Enabled(w, SendStep) || Enabled(w, ReceiveStep) || Enabled(w, CheckStep) || Enabled(w, TakeStep)
  }

  /**
   A completion in flight or a command being handed over can always be moved on, except
   exactly when run loop, channel and consumer wait in a ring.
   */
  lemma CompletionsMoveUnlessWedged(w: World)
    requires ConsumerBusy(w) || w.channel.Some? || w.sending.Some?
    ensures Moves(w) <==> !Wedged(w)
  {
  }

  /** A consumer that never lets two firings wait unchecked is never caught in the ring. */
  lemma FewUncheckedNeverWedge(steps: seq<Step>)
    requires Legal(INITIAL, steps)
    requires var w := After(INITIAL, steps); |w.fired| - w.checked < 2
    ensures !Wedged(After(INITIAL, steps))
  {
    var w := After(INITIAL, steps);
    ReachedInv(w);
    hide SettledIsSuffix, GenerationsUnique, ActiveIsLatest, CancelsFit, AcceptedOnce;
    assert |w.fired[w.checked..]| == |AsSeq(w.held) + AsSeq(w.channel) + AsSeq(w.sending)|;
  }

  /** Once wedged, the facility takes no command ever again, whoever issues it. */
  lemma {:induction false} WedgedForever(w: World, steps: seq<Step>)
    requires Wedged(w) && Legal(w, steps)
    ensures var n := After(w, steps);
            Wedged(n) && n.checked == w.checked && n.f == w.f && n.held == w.held && n.asking == w.asking
    ensures forall i :: 0 <= i < |steps| ==> steps[i].ExitStep?
    decreases |steps|
  {
    if steps != [] {
      assert steps[0].ExitStep?;
      WedgedForever(Next(w, steps[0]), steps[1..]);
    }
  }

  /** Two timers armed, the first completion in the channel and the run loop blocked on the second. */
  lemma TwoDue(a: string, b: string) returns (steps: seq<Step>, w: World)
    requires a != b
    ensures Legal(INITIAL, steps) && After(INITIAL, steps) == w
    ensures w.sending == Some(Completion(b, 3)) && w.channel == Some(Completion(a, 2)) && !ConsumerBusy(w)
  {
    var w1 := Next(INITIAL, ArmStep(a));
    var w2 := Next(w1, ArmStep(b));
    assert w2.f.active[a] == 2 && w2.f.active[b] == 3 && w2.waiting[2] == a && w2.waiting[3] == b;
    hide Fire, Arm;
    FireCurrent(w2, 2);
    var w3 := Next(w2, FireStep(2));
    var w4 := Next(w3, SendStep);
    FireCurrent(w4, 3);
    w := Next(w4, FireStep(3));
    steps := [FireStep(3)] + [];
    hide Next;
    Extend(w, [], w4, FireStep(3));
    Extend(w, steps, w3, SendStep);
    steps := [SendStep] + steps;
    Extend(w, steps, w2, FireStep(2));
    steps := [FireStep(2)] + steps;
    Extend(w, steps, w1, ArmStep(b));
    steps := [ArmStep(b)] + steps;
    Extend(w, steps, INITIAL, ArmStep(a));
    steps := [ArmStep(a)] + steps;
  }

  /** Two timers due before the consumer's next command are enough to wedge it, whatever the command. */
  lemma CommandWedgeIsReachable(a: string, b: string, req: Request)
    requires a != b
    ensures exists steps :: Legal(INITIAL, steps)
              && After(INITIAL, steps).asking == Some(req) && Wedged(After(INITIAL, steps))
  {
    var steps, w := TwoDue(a, b);
    RunExtends(INITIAL, steps, AskStep(req));
  }

  lemma {:induction false} RunExtends(w: World, steps: seq<Step>, s: Step)
    requires Legal(w, steps) && Enabled(After(w, steps), s)
    ensures Legal(w, steps + [s]) && After(w, steps + [s]) == Next(After(w, steps), s)
    decreases |steps|
  {
    hide Next, Enabled;
    if steps == [] {
      assert [] + [s] == [s];
      assert Legal(Next(w, s), [s][1..]);
    } else {
      RunExtends(Next(w, steps[0]), steps[1..], s);
      assert (steps + [s])[1..] == steps[1..] + [s];
    }
  }

  /** Three timers due before the consumer's first check wedge it while it holds a completion. */
  lemma WedgeIsReachable(a: string, b: string, c: string)
    requires a != b && b != c && a != c
    ensures exists steps :: Legal(INITIAL, steps)
              && After(INITIAL, steps).held.Some? && Wedged(After(INITIAL, steps))
  {
    var w1 := Next(INITIAL, ArmStep(a));
    var w2 := Next(w1, ArmStep(b));
    var w3 := Next(w2, ArmStep(c));
    assert w3.f.active[a] == 2 && w3.f.active[b] == 3 && w3.f.active[c] == 4;
    assert w3.waiting[2] == a && w3.waiting[3] == b && w3.waiting[4] == c;
    hide Next;
    var tail := FiringsWedge(w3, a, b, c);
    var last := After(w3, tail);
    Extend(last, tail, w2, ArmStep(c));
    Extend(last, [ArmStep(c)] + tail, w1, ArmStep(b));
    Extend(last, [ArmStep(b)] + ([ArmStep(c)] + tail), INITIAL, ArmStep(a));
  }

  lemma FireCurrent(w: World, gen: int)
    requires Enabled(w, FireStep(gen)) && IsCurrent(w.f, Completion(w.waiting[gen], gen))
    requires |w.f.settled| < MAX_SETTLED
    ensures var v := Next(w, FireStep(gen));
            v.sending == Some(Completion(w.waiting[gen], gen)) && v.waiting == w.waiting - {gen}
            && v.f.active == w.f.active && |v.f.settled| == |w.f.settled| + 1
            && v.channel == w.channel && v.held == w.held && v.asking == w.asking
  {
  }

  lemma FiringsWedge(w3: World, a: string, b: string, c: string) returns (tail: seq<Step>)
    requires 2 in w3.waiting && 3 in w3.waiting && 4 in w3.waiting
    requires w3.waiting[2] == a && w3.waiting[3] == b && w3.waiting[4] == c
    requires IsCurrent(w3.f, Completion(a, 2)) && IsCurrent(w3.f, Completion(b, 3)) && IsCurrent(w3.f, Completion(c, 4))
    requires w3.sending.None? && w3.channel.None? && !ConsumerBusy(w3) && w3.f.settled == []
    ensures Legal(w3, tail) && After(w3, tail).held.Some? && Wedged(After(w3, tail))
  {
    hide Fire;
    FireCurrent(w3, 2);
    var w4 := Next(w3, FireStep(2));
    var w5 := Next(w4, SendStep);
    var w6 := Next(w5, ReceiveStep);
    FireCurrent(w6, 3);
    var w7 := Next(w6, FireStep(3));
    var w8 := Next(w7, SendStep);
    FireCurrent(w8, 4);
    var w9 := Next(w8, FireStep(4));
    assert Wedged(w9);
    Extend(w9, [], w8, FireStep(4));
    Extend(w9, [FireStep(4)] + [], w7, SendStep);
    var t3 := [SendStep] + ([FireStep(4)] + []);
    Extend(w9, t3, w6, FireStep(3));
    Extend(w9, [FireStep(3)] + t3, w5, ReceiveStep);
    var t5 := [ReceiveStep] + ([FireStep(3)] + t3);
    Extend(w9, t5, w4, SendStep);
    Extend(w9, [SendStep] + t5, w3, FireStep(2));
    tail := [FireStep(2)] + ([SendStep] + t5);
  }

  lemma Extend(last: World, tail: seq<Step>, w: World, s: Step)
    requires Enabled(w, s) && Legal(Next(w, s), tail) && After(Next(w, s), tail) == last
    ensures Legal(w, [s] + tail) && After(w, [s] + tail) == last
  {
    assert ([s] + tail)[1..] == tail;
  }
}
