/** How long a call talked: the seconds from the join that answered it to the step that ended it, in every finalizer and bubble. */
module CallTalk {
  import opened Common
  import opened CallModel
  import opened CallSegments
  import opened CallProtocol
  import opened CallMemory
  import opened CallBooks
  import opened CallSteps
  import opened CallTheorems
  import opened CallResults

  // ----- the answer ------------------------------------------------------------------------

  /** The step is a join that takes the call from ringing to ongoing. */
  ghost predicate Answers(s: Server, step: Step, c: CallId) {
    && step.Joins? && step.c == c && Enabled(s, step)
    && RingsOn(s.node.mem, c)
    && Next(s, step).node.mem.Live(c) && Next(s, step).node.mem.calls[c].status.Ongoing?
  }

  ghost predicate AnswersAt(steps: seq<Step>, k: nat, c: CallId) {
    k < |steps| && After(steps[..k]).Some? && Answers(After(steps[..k]).value, steps[k], c)
  }

  /** The last join of the run to answer the call; a rolled-back answer is followed by another or by none. */
  ghost predicate LastAnswer(steps: seq<Step>, k: nat, c: CallId) {
    AnswersAt(steps, k, c) && forall j: nat | k < j < |steps| :: !AnswersAt(steps, j, c)
  }

  predicate OngoingSince(m: Mem, c: CallId, t: Option<int>) { c in m.calls && m.calls[c].status.Ongoing? && m.calls[c].answeredAt == t }

  lemma JoinAnswers(n: Node, d: CallId, u: UserId, member: bool, now: int, c: CallId)
    requires c in n.mem.calls || c in Join(n, d, u, member, now).mem.calls
    ensures var (m, m') := (n.mem, Join(n, d, u, member, now).mem);
            && c in m.calls && c in m'.calls
            && (m'.calls[c].status.Ongoing? ==>
                  if c == d && RingsOn(m, c) then m'.Live(c) && m'.calls[c].answeredAt == Some(now)
                  else m.calls[c].status.Ongoing? && m'.calls[c].answeredAt == m.calls[c].answeredAt)
  {
  }

  lemma GoOnAnswersNothing(n: Node, i: nat, c: CallId, t: Option<int>)
    requires IsAnswered(n, i) && OngoingSince(GoOn(n, i).mem, c, t)
    ensures OngoingSince(n.mem, c, t)
  {
    hide SetRingTimer, MarkLeft, RevertOngoing, Remove;
    var op := n.batches[i].op;
    var m1 := MarkLeft(n.mem, op.call, if op.UpsertJoin? then op.user else 0);
    SameTalkBack(n.mem, op.call, if op.UpsertJoin? then op.user else 0, c, t);
    RevertBack(n.mem, op.call, c, t);
    RevertBack(m1, op.call, c, t);
    RemoveBack(n.mem, op.call, c, t);
    var ring := RingTimer(n.mem.issued, op.call);
    ArmBack(n.mem.(armed := n.mem.armed + {ring}, issued := n.mem.issued + 1), op.call, ring, c, t);
  }

  lemma SameTalkBack(m: Mem, d: CallId, u: UserId, c: CallId, t: Option<int>)
    ensures OngoingSince(MarkLeft(m, d, u), c, t) ==> OngoingSince(m, c, t)
  {
  }

  lemma RevertBack(m: Mem, d: CallId, c: CallId, t: Option<int>)
    ensures OngoingSince(RevertOngoing(m, d), c, t) ==> OngoingSince(m, c, t)
  {
  }

  lemma RemoveBack(m: Mem, d: CallId, c: CallId, t: Option<int>)
    ensures OngoingSince(Remove(m, d), c, t) ==> OngoingSince(m, c, t)
  {
  }

  lemma ArmBack(m: Mem, d: CallId, ring: Timer, c: CallId, t: Option<int>)
    ensures OngoingSince(SetRingTimer(m, d, ring), c, t) ==> OngoingSince(m, c, t)
  {
  }

  /** A call that is ongoing after a step was ongoing since the same time before, or the step answered it. */
  lemma TalkStep(s: Server, step: Step, c: CallId, t: Option<int>)
    requires Enabled(s, step) && OngoingSince(Next(s, step).node.mem, c, t)
    ensures if Answers(s, step, c) then t == Some(Clock(step)) else OngoingSince(s.node.mem, c, t)
  {
    hide GoOn, Join, Rolled, Blame, Execute, Settled, Remove;
    var n := s.node;
    match step
    case Joins(d, u, _, member, now) => JoinAnswers(n, d, u, member, now, c);
    case HandlerGoesOn(i) => GoOnAnswersNothing(n, i, c, t);
    case SweeperFires(d, now) => RemoveBack(n.mem, d, c, t);
    case Invites(_, _, _, _, _, _, _, _) =>
    case BatchCommits(_, _) =>
    case BatchFails(_) =>
    case _ =>
      SettledSteps(s, step, c);
      SettledTalk(n, Next(s, step).node, c, Clock(step));
  }

  lemma SettledTalk(n: Node, n': Node, c: CallId, now: int)
    requires Settled(n, n', c, now) && c in n'.mem.calls
    ensures c in n.mem.calls && n'.mem.calls[c].status == n.mem.calls[c].status && n'.mem.calls[c].answeredAt == n.mem.calls[c].answeredAt
  {
  }

  /** An ongoing call dates its answer from the last join that answered it. */
  lemma {:induction false} AnsweredByTheLast(steps: seq<Step>, c: CallId) returns (k: nat)
    requires After(steps).Some?
    requires c in After(steps).value.node.mem.calls && After(steps).value.node.mem.calls[c].status.Ongoing?
    ensures LastAnswer(steps, k, c) && After(steps).value.node.mem.calls[c].answeredAt == Some(Clock(steps[k]))
  {
    hide Next, Enabled, Answers;
    if steps == [] {
      assert false;
    } else {
      var (front, last) := (steps[..|steps|-1], |steps| - 1);
      var t := After(steps).value.node.mem.calls[c].answeredAt;
      TalkStep(After(front).value, steps[last], c, t);
      assert AnswersAt(steps, last, c) <==> Answers(After(front).value, steps[last], c);
      if AnswersAt(steps, last, c) {
        k := last;
      } else {
        k := AnsweredByTheLast(front, c);
        AnswersBefore(steps, c);
      }
    }
  }

  lemma AnswersBefore(steps: seq<Step>, c: CallId)
    requires steps != []
    ensures forall j: nat | j < |steps| - 1 :: AnswersAt(steps, j, c) <==> AnswersAt(steps[..|steps|-1], j, c)
  {
    forall j: nat | j < |steps| - 1 ensures AnswersAt(steps, j, c) <==> AnswersAt(steps[..|steps|-1], j, c) {
      assert steps[..|steps|-1][..j] == steps[..j];
    }
  }

  // ----- the finalizer -----------------------------------------------------------------------

  lemma GoOnFinalizesNothing(n: Node, i: nat, j: nat)
    requires IsAnswered(n, i) && |n.batches| <= j < |GoOn(n, i).batches|
    ensures !GoOn(n, i).batches[j].op.Finalize?
  {
    hide MarkLeft, RevertOngoing, Remove, SetRingTimer;
  }

  /** A finalizer is only sent of a call in memory, by a step that reads the clock, and says what is true of the call. */
  lemma FinalizerSays(s: Server, step: Step, i: nat)
    requires Enabled(s, step) && |s.node.batches| <= i < |Next(s, step).node.batches|
    requires Next(s, step).node.batches[i].op.Finalize?
    ensures var op := Next(s, step).node.batches[i].op;
            && !step.Joins? && IsOrdinary(step) && op.call in s.node.mem.calls
            && Says(s.node.mem.calls[op.call], op, Clock(step))
  {
    hide Next, Says;
    if step.Joins? || !IsOrdinary(step) { OthersFinalizeNothing(s, step, i); }
    SettledSteps(s, step, Next(s, step).node.batches[i].op.call);
  }

  lemma OthersFinalizeNothing(s: Server, step: Step, i: nat)
    requires Enabled(s, step) && |s.node.batches| <= i < |Next(s, step).node.batches|
    requires step.Joins? || !IsOrdinary(step)
    ensures !Next(s, step).node.batches[i].op.Finalize?
  {
    hide GoOn, Rolled, Blame, Execute, MarkJoined, Create, Remove;
    if step.HandlerGoesOn? { GoOnFinalizesNothing(s.node, step.i, i); }
  }

  /** The seconds of talk between two readings of the clock, to the nearest. */
  predicate Nearest(seconds: int, from: int, to: int) { -500 <= (to - from) - 1000 * seconds < 500 }

  /** Between the last join to take the call from ringing to ongoing and `to` lie that many seconds. */
  ghost predicate TalkedUntil(steps: seq<Step>, c: CallId, seconds: int, to: int) {
    exists k: nat :: LastAnswer(steps, k, c) && Nearest(seconds, Clock(steps[k]), to)
  }

  /**
   A finalizer that says ENDED counts from the answer, not from the ring and not from an
   answer that was rolled back.
   */
  lemma TalkIsCountedFromTheAnswer(steps: seq<Step>, s: Server, step: Step, i: nat)
    requires After(steps) == Some(s) && Enabled(s, step)
    requires |s.node.batches| <= i < |Next(s, step).node.batches|
    requires Next(s, step).node.batches[i].op.Finalize? && Next(s, step).node.batches[i].op.verdict.Ended?
    ensures var op := Next(s, step).node.batches[i].op;
            op.durationSec.Some? && TalkedUntil(steps, op.call, op.durationSec.value, Clock(step))
  {
    hide Next, Enabled, Answers;
    var s' := Next(s, step);
    var b := s'.node.batches[i];
    ReachesNext(steps, s, step);
    VerdictsFit(s', b);
    FinalizerSays(s, step, i);
    AnsweredIsOngoing(s, b.op.call);
    var k := AnsweredByTheLast(steps, b.op.call);
    assert Nearest(b.op.durationSec.value, Clock(steps[k]), Clock(step));
  }

  lemma ReachesNext(steps: seq<Step>, s: Server, step: Step)
    requires After(steps) == Some(s) && Enabled(s, step)
    ensures Reachable(s) && Reachable(Next(s, step))
  {
    hide Next, Enabled;
    assert (steps + [step])[..|steps|] == steps;
    assert After(steps + [step]) == Some(Next(s, step));
  }

  lemma AnsweredIsOngoing(s: Server, c: CallId)
    requires Reachable(s) && c in s.node.mem.calls
    ensures s.node.mem.calls[c].answeredAt.Some? <==> s.node.mem.calls[c].status.Ongoing?
  {
    ReachableInv(s);
    hide UsersAgree, ConversationsAgree, TimersAgree;
    assert CallOk(s.node.mem.calls[c]);
  }

  // ----- over whole runs ---------------------------------------------------------------------

  /** Step e of the run sent batch i. */
  ghost predicate SentAt(steps: seq<Step>, e: nat, i: nat) {
    && e < |steps| && After(steps[..e]).Some? && After(steps[..e+1]).Some?
    && |After(steps[..e]).value.node.batches| <= i < |After(steps[..e+1]).value.node.batches|
  }

  /** Step e of the run sent the call's finalizer. */
  ghost predicate EndedAt(steps: seq<Step>, e: nat, c: CallId) {
    exists i: nat :: SentAt(steps, e, i) && After(steps[..e+1]).value.node.batches[i].op.Finalize?
                     && After(steps[..e+1]).value.node.batches[i].op.call == c
  }

  /** Step e of the run came that many seconds after the last answer before it. */
  ghost predicate TalkedFor(steps: seq<Step>, c: CallId, seconds: int, e: nat) {
    e < |steps| && TalkedUntil(steps[..e], c, seconds, Clock(steps[e]))
  }

  lemma {:induction false} BatchesWereSent(steps: seq<Step>, i: nat) returns (e: nat)
    requires After(steps).Some? && i < |After(steps).value.node.batches|
    ensures SentAt(steps, e, i)
    ensures After(steps[..e+1]).value.node.batches[i].op == After(steps).value.node.batches[i].op
  {
    hide Next, Enabled;
    var front := steps[..|steps|-1];
    if i < |After(front).value.node.batches| {
      e := BatchesWereSent(front, i);
      assert front[..e] == steps[..e] && front[..e+1] == steps[..e+1];
      StepKeepsOps(After(front).value, steps[|steps|-1]);
    } else {
      e := |front|;
      assert steps[..e] == front && steps[..e+1] == steps;
    }
  }

  /** Every finalizer of a run that says ENDED, and no other, carries the talk time of its call. */
  lemma EveryFinalizerCountsTheTalk(steps: seq<Step>, i: nat)
    requires After(steps).Some? && i < |After(steps).value.node.batches| && After(steps).value.node.batches[i].op.Finalize?
    ensures var op := After(steps).value.node.batches[i].op;
            && (op.durationSec.Some? <==> op.verdict.Ended?)
            && (op.verdict.Ended? ==> exists e: nat :: EndedAt(steps, e, op.call) && TalkedFor(steps, op.call, op.durationSec.value, e))
  {
    hide Next, Enabled, TalkedUntil;
    var s := After(steps).value;
    var op := s.node.batches[i].op;
    assert s.node.batches[i] in s.node.batches && Reachable(s);
    VerdictsFit(s, s.node.batches[i]);
    if op.verdict.Ended? {
      var e := BatchesWereSent(steps, i);
      SplitAfter(steps, e);
      TalkIsCountedFromTheAnswer(steps[..e], After(steps[..e]).value, steps[e], i);
      assert TalkedFor(steps, op.call, op.durationSec.value, e);
    }
  }

  lemma SplitAfter(steps: seq<Step>, e: nat)
    requires e < |steps| && After(steps[..e+1]).Some?
    ensures After(steps[..e]).Some? && Enabled(After(steps[..e]).value, steps[e])
    ensures After(steps[..e+1]) == Some(Next(After(steps[..e]).value, steps[e]))
  {
    hide Next, Enabled;
    assert steps[..e+1][..e] == steps[..e];
  }

  /** The finalizer batch a bubble came with. */
  ghost predicate BubbleOf(n: Node, b: Bubble, i: nat) {
    && i < |n.batches| && n.batches[i].op.Finalize? && n.batches[i].op.call == b.call
    && n.batches[i].op.verdict == b.verdict && n.batches[i].op.kind == b.kind && n.batches[i].op.durationSec == b.durationSec
  }

  lemma {:induction false} BubblesAreFinalizers(steps: seq<Step>, j: nat) returns (i: nat)
    requires After(steps).Some? && j < |After(steps).value.db.bubbles|
    ensures BubbleOf(After(steps).value.node, After(steps).value.db.bubbles[j], i)
  {
    hide Next, Enabled;
    if steps == [] {
      assert false;
    } else {
      var (front, step) := (steps[..|steps|-1], steps[|steps|-1]);
      var (s, s') := (After(front).value, After(steps).value);
      StepKeepsOps(s, step);
      BubbleLands(s, step);
      if j < |s.db.bubbles| { i := BubblesAreFinalizers(front, j); } else { i := step.i; }
    }
  }

  lemma BubbleLands(s: Server, step: Step)
    requires Enabled(s, step)
    ensures var (b, b') := (s.db.bubbles, Next(s, step).db.bubbles);
            || b' == b
            || (&& step.BatchCommits? && |b'| == |b| + 1 && b'[..|b|] == b
                && BubbleOf(s.node, b'[|b|], step.i) && BubbleOf(Next(s, step).node, b'[|b|], step.i))
  {
    hide GoOn, Invite, Join, Kick, Disconnect, RingExpires, GraceExpires, Rolled, Blame, Remove, Reject, Leave, Cancel, Connect, SweepOne;
  }

  /** So the history bubble of an answered call tells how long it talked, and no other bubble tells a time. */
  lemma BubblesTellTheTalk(steps: seq<Step>, j: nat)
    requires After(steps).Some? && j < |After(steps).value.db.bubbles|
    ensures var b := After(steps).value.db.bubbles[j];
            && (b.durationSec.Some? <==> b.verdict.Ended?)
            && (b.verdict.Ended? ==> exists e: nat :: EndedAt(steps, e, b.call) && TalkedFor(steps, b.call, b.durationSec.value, e))
  {
    hide After, TalkedFor, EndedAt;
    var i := BubblesAreFinalizers(steps, j);
    EveryFinalizerCountsTheTalk(steps, i);
  }
}
