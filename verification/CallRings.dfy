/**
 Which ringing calls have a ring timer: all but those a rollback put back to ringing
 after the timer had come and gone. A call is timed while its timer is armed or its
 invite has yet to arm it; an untimed call is never timed again, since a timer is
 armed once, by the invite.
 */
module CallRings {
  import opened Common
  import opened CallModel
  import opened CallSegments
  import opened CallProtocol
  import opened CallSteps

  /** A ringing call is timed, or a rollback untimed it; and an untimed call never gets a timer again. */
  ghost predicate RingAt(n: Node, log: Log, c: CallId) {
    && (RingsOn(n.mem, c) && c !in log.untimed ==> Timed(n, c))
    && (c in log.untimed ==> c in log.used && !Timed(n, c))
  }

  ghost predicate Rings(n: Node, log: Log) { forall c :: RingAt(n, log, c) }

  lemma OrdinaryKeepsRing(n: Node, n': Node, log: Log, c: CallId)
    requires RingAt(n, log, c) && Ordinary(n, n', c)
    ensures RingAt(n', log, c)
  {
    OrdinaryKeepsInsert(n, n', c);
  }

  lemma OrdinaryKeepsInsert(n: Node, n': Node, c: CallId)
    requires Ordinary(n, n', c)
    ensures OpenInsert(n', c) <==> OpenInsert(n, c)
  {
    if i :| 0 <= i < |n.batches| && n.batches[i].op.InsertCall? && n.batches[i].op.call == c && !n.batches[i].phase.Closed? {
      assert n'.batches[i] == n.batches[i];
    }
  }

  /** A batch of another kind, or of another call, changing phase does not open or close the insert. */
  lemma PhaseKeepsInsert(n: Node, i: nat, phase: Phase, c: CallId)
    requires i < |n.batches|
    requires n.batches[i].op.InsertCall? && n.batches[i].op.call == c ==> !n.batches[i].phase.Closed? && !phase.Closed?
    ensures OpenInsert(n.(batches := n.batches[i := n.batches[i].(phase := phase)]), c) <==> OpenInsert(n, c)
  {
    var n' := n.(batches := n.batches[i := n.batches[i].(phase := phase)]);
    if j :| 0 <= j < |n.batches| && n.batches[j].op.InsertCall? && n.batches[j].op.call == c && !n.batches[j].phase.Closed? {
      assert n'.batches[j].op == n.batches[j].op && !n'.batches[j].phase.Closed?;
    }
  }

  lemma SendKeepsInsert(n: Node, op: Op, c: CallId)
    ensures OpenInsert(Send(n, op), c) <==> OpenInsert(n, c) || (op.InsertCall? && op.call == c)
  {
    var n' := Send(n, op);
    if i :| 0 <= i < |n.batches| && n.batches[i].op.InsertCall? && n.batches[i].op.call == c && !n.batches[i].phase.Closed? {
      assert n'.batches[i] == n.batches[i];
    }
    if op.InsertCall? && op.call == c { assert n'.batches[|n.batches|].op == op; }
  }

  /** The same batches, and memory in which the call neither starts to ring nor loses or gains a timer. */
  lemma MemKeepsRing(n: Node, n': Node, log: Log, c: CallId)
    requires RingAt(n, log, c) && (OpenInsert(n', c) <==> OpenInsert(n, c))
    requires RingsOn(n'.mem, c) ==> RingsOn(n.mem, c)
    requires c in n'.mem.calls ==> c in n.mem.calls && n'.mem.calls[c].ringTimer == n.mem.calls[c].ringTimer
    ensures RingAt(n', log, c)
  {
    hide OpenInsert;
  }

  lemma DeadKeepsRing(n: Node, n': Node, log: Log, c: CallId)
    requires RingAt(n, log, c) && c !in n'.mem.calls && (OpenInsert(n', c) ==> OpenInsert(n, c))
    ensures RingAt(n', log, c)
  {
    hide OpenInsert;
  }

  lemma InviteKeepsRing(s: Server, step: Step, c: CallId)
    requires Enabled(s, step) && step.Invites? && RingAt(s.node, s.log, c)
    ensures RingAt(Next(s, step).node, Next(s, step).log, c)
  {
    hide OpenInsert;
    var Invites(d, u, conv, kind, member, members, blocked, now) := step;
    var n := s.node;
    if InviteAnswerOf(n, u, conv, member, members, blocked).Reserved? {
      var rung := OnlineOthers(n, u, members.value);
      SendKeepsInsert(n.(mem := Create(n.mem, d, conv, kind, u, rung, now)), InsertCall(d, conv, kind, u, rung), c);
      assert OpenInsert(n.(mem := Create(n.mem, d, conv, kind, u, rung, now)), c) <==> OpenInsert(n, c) by {
        SameBatchesSameInsert(n, n.(mem := Create(n.mem, d, conv, kind, u, rung, now)), c);
      }
    }
  }

  lemma SameBatchesSameInsert(n: Node, n': Node, c: CallId)
    requires n'.batches == n.batches
    ensures OpenInsert(n', c) <==> OpenInsert(n, c)
  {
  }

  lemma AnswerKeepsRing(n: Node, i: nat, phase: Phase, log: Log, c: CallId)
    requires RingAt(n, log, c) && i < |n.batches| && n.batches[i].phase.InFlight? && !phase.Closed?
    ensures RingAt(Answered(n, i, phase), log, c)
  {
    hide OpenInsert;
    PhaseKeepsInsert(n, i, phase, c);
    MemKeepsRing(n, Answered(n, i, phase), log, c);
  }

  lemma SweepKeepsRing(n: Node, d: CallId, now: int, log: Log, c: CallId)
    requires RingAt(n, log, c)
    ensures RingAt(SweepOne(n, d, now), log, c)
  {
    hide OpenInsert;
    if Stuck(n.mem, d, now) {
      var n1 := n.(mem := Remove(n.mem, d));
      SameBatchesSameInsert(n, n1, c);
      SendKeepsInsert(n1, StampSwept(d), c);
      if c == d { DeadKeepsRing(n, SweepOne(n, d, now), log, c); } else { MemKeepsRing(n, SweepOne(n, d, now), log, c); }
    }
  }

  // ----- continuations -----------------------------------------------------------------

  /** The invite goes on: its insert closes, and the call is timed, or gone, or ended. */
  lemma InviteGoesOnKeepsRing(n: Node, i: nat, log: Log, c: CallId)
    requires RingAt(n, log, c) && i < |n.batches| && n.batches[i].op.InsertCall?
    requires n.batches[i].phase.Committed? || n.batches[i].phase.Failed?
    ensures RingAt(GoOn(n, i), log, c)
  {
    hide OpenInsert;
    var op := n.batches[i].op;
    var (d, n1, n') := (op.call, Close(n, i), GoOn(n, i));
    ClosedInsert(n, i, c);
    SameBatchesSameInsert(n1, n1.(mem := n'.mem), c);
    SendKeepsInsert(n1, StampOrphan(d), c);
    assert d == c ==> OpenInsert(n, c) by { assert n.batches[i].op.InsertCall?; InsertIsOpen(n, i); }
    if c != d { MemKeepsRing(n, n', log, c); }
  }

  lemma InsertIsOpen(n: Node, i: nat)
    requires i < |n.batches| && n.batches[i].op.InsertCall? && !n.batches[i].phase.Closed?
    ensures OpenInsert(n, n.batches[i].op.call)
  {
  }

  lemma ClosedInsert(n: Node, i: nat, c: CallId)
    requires i < |n.batches| && n.batches[i].op.InsertCall?
    ensures OpenInsert(Close(n, i), c) ==> OpenInsert(n, c)
    ensures n.batches[i].op.call != c ==> (OpenInsert(Close(n, i), c) <==> OpenInsert(n, c))
  {
    var n' := Close(n, i);
    forall j | 0 <= j < |n.batches| && j != i ensures n'.batches[j] == n.batches[j] {}
  }

  /** The rollback logs what it leaves untimed; every other continuation of a join leaves the ring as it is. */
  lemma JoinGoesOnKeepsRing(n: Node, i: nat, log: Log, c: CallId)
    requires RingAt(n, log, c) && i < |n.batches| && n.batches[i].op.UpsertJoin?
    requires n.batches[i].phase.Committed? || n.batches[i].phase.Failed?
    requires n.mem.calls.Keys <= log.used
    ensures RingAt(GoOn(n, i), Rolled(log, n, i), c)
  {
    hide OpenInsert, RollbackStrands;
    var op := n.batches[i].op;
    var (d, n1, n') := (op.call, Close(n, i), GoOn(n, i));
    PhaseKeepsInsert(n, i, Closed, c);
    SameBatchesSameInsert(n1, n1.(mem := n'.mem), c);
    SendKeepsInsert(n1, Restamp(d, op.user), c);
    if n.batches[i].phase.Failed? { RollbackRecord(n.mem, op, c); }
  }

  lemma RollbackRecord(m: Mem, op: Op, c: CallId)
    requires op.UpsertJoin?
    ensures var m1 := if op.alreadyJoined then m else MarkLeft(m, op.call, op.user);
            var m' := if op.becameOngoing then RevertOngoing(m1, op.call) else m1;
            && m'.calls.Keys == m.calls.Keys
            && (c in m.calls ==> m'.calls[c].ringTimer == m.calls[c].ringTimer && m'.calls[c].terminal == m.calls[c].terminal)
            && (c in m.calls && !(c == op.call && op.becameOngoing) ==> m'.calls[c].status == m.calls[c].status)
            && (op.becameOngoing && m.Live(op.call) ==> m'.calls[op.call].status.Ringing?)
  {
  }

  lemma GoOnKeepsRing(n: Node, i: nat, log: Log, c: CallId)
    requires RingAt(n, log, c) && i < |n.batches| && n.mem.calls.Keys <= log.used
    requires n.batches[i].phase.Committed? || n.batches[i].phase.Failed?
    ensures RingAt(GoOn(n, i), Rolled(log, n, i), c)
  {
    hide OpenInsert, RingAt;
    var op := n.batches[i].op;
    var n' := GoOn(n, i);
    if op.InsertCall? {
      InviteGoesOnKeepsRing(n, i, log, c);
    } else if op.UpsertJoin? {
      JoinGoesOnKeepsRing(n, i, log, c);
    } else {
      PhaseKeepsInsert(n, i, Closed, c);
      SameBatchesSameInsert(Close(n, i), n', c);
      if op.Finalize? && c == op.call { DeadKeepsRing(n, n', log, c); } else { MemKeepsRing(n, n', log, c); }
    }
  }

  lemma StepKeepsRing(s: Server, step: Step, c: CallId)
    requires RingAt(s.node, s.log, c) && Enabled(s, step) && s.node.mem.calls.Keys <= s.log.used
    ensures RingAt(Next(s, step).node, Next(s, step).log, c)
  {
    hide RingAt, Ordinary, GoOn, Rolled, SweepOne, Answered, Execute;
    var n := s.node;
    match step
    case Invites(_, _, _, _, _, _, _, _) => InviteKeepsRing(s, step, c);
    case BatchCommits(i, _) => AnswerKeepsRing(n, i, Committed, s.log, c);
    case BatchFails(i) =>
      AnswerKeepsRing(n, i, Failed, s.log, c);
      LogKeepsRing(Answered(n, i, Failed), s.log, Blame(s, n.batches[i].op), c);
    case HandlerGoesOn(i) => GoOnKeepsRing(n, i, s.log, c);
    case SweeperFires(d, now) =>
      SweepKeepsRing(n, d, now, s.log, c);
      LogKeepsRing(SweepOne(n, d, now), s.log, Next(s, step).log, c);
    case _ =>
      OrdinarySteps(s, step, c);
      OrdinaryKeepsRing(n, Next(s, step).node, s.log, c);
  }

  lemma LogKeepsRing(n: Node, log: Log, log': Log, c: CallId)
    requires RingAt(n, log, c) && log'.untimed == log.untimed && log'.used == log.used
    ensures RingAt(n, log', c)
  {
  }
}
