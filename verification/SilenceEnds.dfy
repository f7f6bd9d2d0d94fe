/** That the bound does what it is for: exactly when a mark starts it, when it runs out, and that it then ends the call. */
module SilenceEnds {
  import opened Common
  import opened CallerSilence
  import opened SilenceRelay

  lemma ReachedInv(after: nat, steps: seq<Step>)
    requires Legal(after, Opened(), steps)
    ensures Inv(after, After(after, Opened(), steps))
  {
    OpenedInv(after);
    InvThroughout(after, Opened(), steps);
  }

  /**
   A mark that has played starts the count exactly when neither caller speech nor agent audio
   came since it was claimed, no reply is owed to a tool call, and the call is not over.
   */
  lemma MarkStartsCountExactly(after: nat, steps: seq<Step>, k: nat)
    requires Legal(after, Opened(), steps) && Enabled(after, After(after, Opened(), steps), Resolve(k))
    ensures var c := After(after, Opened(), steps);
            var n, i := Next(after, c, Resolve(k)), c.issues[k];
            && (n.issues[k].stage.Armed? <==>
                  !c.b.count.stopped && QuietSince(c.hist, i.at) && !ReplyOwed(c.hist))
            && n.issues[k].stage == (if n.issues[k].stage.Armed? then Armed(|c.hist|, c.now) else Spent)
            && n.hist == c.hist + (if n.issues[k].stage.Armed? then [CountStarted(i.gen)] else [])
  {
    var c := After(after, Opened(), steps);
    ReachedInv(after, steps);
    ResolvesExactly(after, c, k);
  }

  lemma ResolvesExactly(after: nat, c: Call, k: nat)
    requires Enabled(after, c, Resolve(k)) && Inv(after, c)
    ensures Starts(c.b, c.issues[k].gen) <==>
              !c.b.count.stopped && QuietSince(c.hist, c.issues[k].at) && !ReplyOwed(c.hist)
  {
    assert IssueFits(c, c.issues[k]);
    hide QuietSince, ReplyOwed, NoToolSince, IssuesFit, AudioFresh, Tallied, Awake, ClaimsAsked, AudioTracked, CountsOn;
  }

  /** The count of an armed mark runs out exactly when nothing has disturbed it and the call is not over. */
  lemma CountRunsOutExactly(after: nat, steps: seq<Step>, k: nat)
    requires Legal(after, Opened(), steps) && Enabled(after, After(after, Opened(), steps), RunTimer(k))
    ensures var c := After(after, Opened(), steps);
            var n, i := Next(after, c, RunTimer(k)), c.issues[k];
            Fires(c.b, i.gen) <==> !c.b.count.stopped && QuietSince(c.hist, i.at) && NoToolSince(c.hist, i.stage.playedAt)
  {
    var c := After(after, Opened(), steps);
    ReachedInv(after, steps);
    RunsOutExactly(after, c, k);
  }

  lemma RunsOutExactly(after: nat, c: Call, k: nat)
    requires Enabled(after, c, RunTimer(k)) && Inv(after, c)
    ensures Fires(c.b, c.issues[k].gen) <==> !c.b.count.stopped && Undisturbed(c.hist, c.issues[k])
  {
    assert IssueFits(c, c.issues[k]);
    hide QuietSince, ReplyOwed, NoToolSince, IssuesFit, AudioFresh, Tallied, Awake, ClaimsAsked, AudioTracked, RepliesTracked;
  }

  /** The select loop, told that a count ran out, ends the call exactly when its latest claim justifies it. */
  lemma EndsExactly(after: nat, steps: seq<Step>)
    requires Legal(after, Opened(), steps) && After(after, Opened(), steps).pc == Ending
    ensures var c := After(after, Opened(), steps);
            Next(after, c, TryEnd).pc == Ended <==> c.issues != [] && Justified(after, c, c.issues[|c.issues| - 1])
  {
    var c := After(after, Opened(), steps);
    ReachedInv(after, steps);
    EndingExactly(after, c);
    hide Inv, Justified, Legal, After;
  }

  lemma EndingExactly(after: nat, c: Call)
    requires Inv(after, c) && c.pc == Ending
    ensures c.b.count.due && !c.b.count.stopped <==> c.issues != [] && Justified(after, c, c.issues[|c.issues| - 1])
  {
    if c.b.count.due {
      DueIsJustified(after, c);
    }
    hide QuietSince, ReplyOwed, NoToolSince, AsksForMark, IssuesFit, Ordered, Tallied, Awake, ClaimsAsked, RepliesTracked;
  }

  // ---- from an answer to its mark ------------------------------------------------------------------

  /**
   What the drain makes of the next event: an answer outside an utterance asks for a mark, a tool
   call withdraws the request.
   */
  lemma AnswerAsksForMark(after: nat, steps: seq<Step>)
    requires Legal(after, Opened(), steps) && Enabled(after, After(after, Opened(), steps), Step.Drain)
    ensures var c := After(after, Opened(), steps);
            && |c.back.pub| == |c.back.evs|
            && var n, i := Next(after, c, Step.Drain), c.back.buf[0];
            var asks := c.back.evs[i] == Done(false) && !MidUtterance(c.back.evs, c.back.pub, i);
            && (asks ==> n.b.drain.want && n.b.sig.dueCh && n.reqAt == i
                         && n.b.drain.wantHeard == HeardIn(c.back.evs, c.back.pub, i))
            && (!asks ==> n.b.drain.want == (c.b.drain.want && c.back.evs[i] != Done(true)) && n.reqAt == c.reqAt)
  {
    ReachedInv(after, steps);
    var c := After(after, Opened(), steps);
    hide Inv, Legal, After;
    DrainAsks(after, c);
  }

  lemma DrainAsks(after: nat, c: Call)
    requires Inv(after, c) && Enabled(after, c, Step.Drain)
    ensures |c.back.pub| == |c.back.evs|
    ensures c.b.drain.speaking == MidUtterance(c.back.evs, c.back.pub, c.back.buf[0])
    ensures c.b.drain.heard == HeardIn(c.back.evs, c.back.pub, c.back.buf[0])
  {
    hide Owned, Awake, RepliesTracked, ClaimsAsked, Recorded, MidUtterance, HeardIn, StartsIn, Requested;
  }

  /**
   A request the loop was woken for is the one it goes on to claim, with the starts the drain had
   heard when it was made.
   */
  lemma RequestIsTaken(after: nat, steps: seq<Step>)
    requires Legal(after, Opened(), steps) && After(after, Opened(), steps).pc == Taking
    ensures var c := After(after, Opened(), steps);
            var n := Next(after, c, Take);
            if c.b.drain.want then n.pc == Have(c.b.drain.wantHeard, c.reqAt) && Requested(c.back, c.reqAt, n.pc.tag)
            else n.pc == Idle
  {
    ReachedInv(after, steps);
    hide Legal, After, Owned, Awake, RepliesTracked, ClaimsAsked, Overtaken, CountsOn, AudioOpen, Requested;
  }

  // ---- to the end of the call ------------------------------------------------------------------------

  /** The select loop's own steps. */
  predicate ByLoop(step: Step) { step == Take || step == TryClaim || step == WakeExpired || step == TryEnd }

  /** The run the loop makes from here to the end of the call. */
  ghost predicate Finishes(after: nat, c: Call, finish: seq<Step>) {
    && (forall i :: 0 <= i < |finish| ==> ByLoop(finish[i]))
    && Legal(after, c, finish) && After(after, c, finish).pc == Ended
  }

  lemma OneMore(after: nat, c: Call, step: Step, rest: seq<Step>)
    requires Enabled(after, c, step) && ByLoop(step) && Finishes(after, Next(after, c, step), rest)
    ensures Finishes(after, c, [step] + rest)
  {
    assert ([step] + rest)[1..] == rest;
    hide Enabled, Next;
  }

  lemma StillInv(after: nat, c: Call, step: Step)
    requires Inv(after, c) && Enabled(after, c, step)
    ensures Inv(after, Next(after, c, step))
  {
    InvThroughout(after, c, [step]);
    hide Inv, Enabled, Next;
  }

  /** What a count that has run out means for the loop: it is told, and has no claim left to make. */
  lemma DueMeans(after: nat, c: Call)
    requires Inv(after, c) && c.b.count.due
    ensures !c.b.count.stopped && !c.b.sink.audio && c.pc != InSlot
    ensures c.b.sig.firedCh || c.pc == Ending
  {
    hide Tallied, RepliesTracked, ClaimsAsked, Recorded, IssuesFit, Ordered, NoToolSince;
  }

  /** Once a count has run out the loop is at most four steps from ending the call, whatever it is doing. */
  lemma {:induction false} DueEndsCall(after: nat, c: Call) returns (finish: seq<Step>)
    requires Inv(after, c) && c.b.count.due && c.pc != Ended
    ensures Finishes(after, c, finish) && |finish| <= 4
    ensures c.pc == Ending ==> |finish| == 1
    ensures c.pc == Idle ==> |finish| <= 2
    ensures c.pc.Have? ==> |finish| <= 3
    decreases match c.pc case Ending => 0 case Idle => 1 case Have(_, _) => 2 case _ => 3
  {
    DueMeans(after, c);
    hide Inv, Legal, After, Finishes;
    if c.pc == Ending {
      finish := [TryEnd];
      EndsAtOnce(after, c);
    } else {
      var step := if c.pc == Idle then WakeExpired else if c.pc == Taking then Take else TryClaim;
      StillInv(after, c, step);
      var rest := DueEndsCall(after, Next(after, c, step));
      OneMore(after, c, step, rest);
      finish := [step] + rest;
    }
  }

  lemma EndsAtOnce(after: nat, c: Call)
    requires c.pc == Ending && Ends(c.b)
    ensures Finishes(after, c, [TryEnd])
  {
  }

  /** A run in which the timer of mark k has not been run yet. */
  ghost predicate TimerWaits(steps: seq<Step>, k: nat) { forall i :: 0 <= i < |steps| ==> steps[i] != RunTimer(k) }

  lemma {:induction false} StaysArmed(after: nat, c: Call, steps: seq<Step>, k: nat)
    requires Inv(after, c) && Legal(after, c, steps) && TimerWaits(steps, k)
    requires k < |c.issues| && c.issues[k].stage.Armed?
    ensures var w := After(after, c, steps);
            Inv(after, w) && k < |w.issues| && w.issues[k] == c.issues[k]
    decreases |steps|
  {
    if steps != [] {
      ArmedStep(after, c, steps[0], k);
      hide Inv, Enabled, Next;
      StillInv(after, c, steps[0]);
      StaysArmed(after, Next(after, c, steps[0]), steps[1..], k);
    }
  }

  lemma ArmedStep(after: nat, c: Call, step: Step, k: nat)
    requires Inv(after, c) && Enabled(after, c, step) && step != RunTimer(k)
    requires k < |c.issues| && c.issues[k].stage.Armed?
    ensures k < |Next(after, c, step).issues| && Next(after, c, step).issues[k] == c.issues[k]
  {
    hide Observe, Claim, Played, Fire, Tallied, Awake, RepliesTracked, ClaimsAsked, Recorded, IssuesFit, CountOwned, Ordered;
  }

  /**
   A silent caller is ended: whatever run follows the mark that starts the count, if the bound
   has passed with no caller speech or agent audio since the claim and no tool call since the
   mark, its timer can run, and the loop then ends the call in at most four steps of its own.
   */
  lemma SilentCallerIsEnded(after: nat, steps: seq<Step>, k: nat, more: seq<Step>) returns (finish: seq<Step>)
    requires Legal(after, Opened(), steps) && Enabled(after, After(after, Opened(), steps), Resolve(k))
    requires var c := After(after, Opened(), steps);
             var s := Next(after, c, Resolve(k));
             && s.issues[k].stage.Armed? && Legal(after, s, more) && TimerWaits(more, k)
             && var w := After(after, s, more);
             && w.pc != Ended && w.now >= c.now + after
             && QuietSince(w.hist, c.issues[k].at) && NoToolSince(w.hist, |c.hist|)
    ensures var w := After(after, Next(after, After(after, Opened(), steps), Resolve(k)), more);
            && Enabled(after, w, RunTimer(k))
            && |finish| <= 4 && Finishes(after, Next(after, w, RunTimer(k)), finish)
  {
    ReachedInv(after, steps);
    var c := After(after, Opened(), steps);
    StillInv(after, c, Resolve(k));
    MarkArmed(after, c, k);
    hide Inv, Legal, After, Enabled, Next, QuietSince, NoToolSince, Finishes;
    finish := ArmedEndsCall(after, Next(after, c, Resolve(k)), k, more);
  }

  lemma MarkArmed(after: nat, c: Call, k: nat)
    requires Enabled(after, c, Resolve(k))
    ensures var i := Next(after, c, Resolve(k)).issues[k];
            i.at == c.issues[k].at && (i.stage.Armed? ==> i.stage == Armed(|c.hist|, c.now))
  {
  }

  /** An armed mark whose bound has passed undisturbed can run its timer, and the loop then ends the call. */
  lemma ArmedEndsCall(after: nat, s: Call, k: nat, more: seq<Step>) returns (finish: seq<Step>)
    requires Inv(after, s) && Legal(after, s, more) && TimerWaits(more, k)
    requires k < |s.issues| && s.issues[k].stage.Armed?
    requires var w := After(after, s, more);
             && w.pc != Ended && w.now >= s.issues[k].stage.since + after
             && QuietSince(w.hist, s.issues[k].at) && NoToolSince(w.hist, s.issues[k].stage.playedAt)
    ensures var w := After(after, s, more);
            && Enabled(after, w, RunTimer(k))
            && |finish| <= 4 && Finishes(after, Next(after, w, RunTimer(k)), finish)
  {
    StaysArmed(after, s, more, k);
    var w := After(after, s, more);
    hide Inv, Legal, After, QuietSince, NoToolSince, Finishes;
    RunsOut(after, w, k);
    StillInv(after, w, RunTimer(k));
    finish := DueEndsCall(after, Next(after, w, RunTimer(k)));
  }

  lemma RunsOut(after: nat, w: Call, k: nat)
    requires Inv(after, w) && Enabled(after, w, RunTimer(k)) && w.pc != Ended && Undisturbed(w.hist, w.issues[k])
    ensures Next(after, w, RunTimer(k)).b.count.due && Next(after, w, RunTimer(k)).pc == w.pc
  {
    RunsOutExactly(after, w, k);
    NotOver(after, w);
    hide Inv, QuietSince, NoToolSince;
  }

  lemma NotOver(after: nat, c: Call)
    requires Inv(after, c) && c.pc != Ended
    ensures !c.b.count.stopped
  {
    hide Owned, Tallied, Awake, RepliesTracked, ClaimsAsked, Overtaken, CountsOn, AudioOpen;
  }
}
