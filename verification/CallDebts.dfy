/**
 Exactly which rows of a finished call stay open: those whose last hope of a stamp was
 lost at some step, by a batch that failed or by the sweeper. For one call row and for
 one participant row alike. A lost row is never found again: every step leaves the set
 of lost rows as it is, but for the rows it loses itself.
 */
module CallDebts {
  import opened Common
  import opened CallModel
  import opened CallSegments
  import opened CallProtocol
  import opened CallBooks
  import opened CallSteps

  /** What is to be closed: the row of a call, or of one of its participants. */
  datatype Debt = RowOf(call: CallId) | PartOf(call: CallId, user: UserId)

  predicate Open(db: Db, d: Debt) {
    match d
    case RowOf(c) => OpenRow(db, c)
    case PartOf(c, u) => OpenPart(db, c, u)
  }

  /** The batch will close it if it commits, or its handler will send one that does. */
  predicate MayClose(b: Batch, d: Debt) {
    b.op.call == d.call &&
    match b.op
    case Finalize(_, _, _, _, _, _) => b.phase.InFlight?
    case StampOrphan(_) => b.phase.InFlight?
    case InsertCall(_, _, _, _, _) => b.phase.Committed?
    case StampSwept(_) => d.RowOf? && b.phase.InFlight?
    case UpsertJoin(_, u, _, _) => d == PartOf(b.op.call, u) && (b.phase.InFlight? || b.phase.Committed?)
    case Restamp(_, u) => d == PartOf(b.op.call, u) && b.phase.InFlight?
    case StampLeft(_, users) => d.PartOf? && d.user in users && b.phase.InFlight?
  }

  predicate HasCloser(n: Node, d: Debt) { exists i | 0 <= i < |n.batches| :: MayClose(n.batches[i], d) }

  /** Open for good: the call is over and nothing under way will close it. */
  predicate Lost(n: Node, db: Db, d: Debt) { Open(db, d) && !n.mem.Live(d.call) && !HasCloser(n, d) }

  /** The step at which an open row loses its last hope. */
  ghost predicate Loses(s: Server, step: Step, d: Debt) {
    Open(s.db, d) &&
    match step
    case BatchFails(i) =>
      && i < |s.node.batches| && MayClose(s.node.batches[i], d) && !s.node.mem.Live(d.call)
      && forall j | 0 <= j < |s.node.batches| && j != i :: !MayClose(s.node.batches[j], d)
    case SweeperFires(c, now) => d.PartOf? && d.call == c && Stuck(s.node.mem, c, now) && !HasCloser(s.node, d)
    case _ => false
  }

  // ----- what the books say of an open row ---------------------------------------------

  lemma OpenIsKnown(n: Node, db: Db, log: Log, d: Debt)
    requires Books(n, db, log) && Open(db, d)
    ensures d.call in db.rows && d.call in log.used
    ensures forall i | 0 <= i < |n.batches| && n.batches[i].op.InsertCall? && n.batches[i].op.call == d.call ::
              n.batches[i].phase.Committed? || n.batches[i].phase.Closed?
  {
    hide FinalizesOnce, BubblesOnce, RowsOwed, PartsOwed;
  }

  // ----- steps that leave the tables alone ------------------------------------------------

  lemma OrdinaryLosesNothing(n: Node, n': Node, db: Db, d: Debt)
    requires Ordinary(n, n', d.call)
    ensures Lost(n', db, d) <==> Lost(n, db, d)
  {
    hide Open, MayClose, MemOrdinary;
    assert n'.mem.Live(d.call) ==> n.mem.Live(d.call) by { OrdinaryLife(n, n', d.call); }
    if HasCloser(n, d) {
      var i :| 0 <= i < |n.batches| && MayClose(n.batches[i], d);
      assert MayClose(n'.batches[i], d);
    } else if n.mem.Live(d.call) && !n'.mem.Live(d.call) {
      var j :| |n.batches| <= j < |n'.batches| && EndsNow(n'.batches[j], d.call);
      FinalizerCloses(n'.batches[j], d);
    } else if !n.mem.Live(d.call) && HasCloser(n', d) {
      var j :| 0 <= j < |n'.batches| && MayClose(n'.batches[j], d);
      CloserIsOfCall(n'.batches[j], d);
    }
  }

  lemma OrdinaryLife(n: Node, n': Node, c: CallId)
    requires Ordinary(n, n', c)
    ensures n'.mem.Live(c) ==> n.mem.Live(c)
  {
  }

  lemma FinalizerCloses(b: Batch, d: Debt)
    requires EndsNow(b, d.call)
    ensures MayClose(b, d)
  {
  }

  lemma CloserIsOfCall(b: Batch, d: Debt)
    requires MayClose(b, d)
    ensures b.op.call == d.call
  {
  }

  /** Batches alike but for one, and a tail of new ones: who may close is known from those. */
  lemma CloserAfter(n: Node, n': Node, i: nat, d: Debt)
    requires i < |n.batches| <= |n'.batches|
    requires forall j | 0 <= j < |n.batches| && j != i :: n'.batches[j] == n.batches[j]
    ensures HasCloser(n, d) && !MayClose(n.batches[i], d) ==> HasCloser(n', d)
    ensures (&& HasCloser(n', d) && !MayClose(n'.batches[i], d)
             && forall j | |n.batches| <= j < |n'.batches| :: !MayClose(n'.batches[j], d)) ==> HasCloser(n, d)
  {
    hide MayClose;
    if HasCloser(n, d) && !MayClose(n.batches[i], d) {
      var j :| 0 <= j < |n.batches| && MayClose(n.batches[j], d);
      assert MayClose(n'.batches[j], d);
    }
    if j :| 0 <= j < |n.batches| && j != i && MayClose(n'.batches[j], d) { assert MayClose(n.batches[j], d); }
  }

  lemma InviteLosesNothing(s: Server, step: Step, d: Debt)
    requires Enabled(s, step) && step.Invites? && Books(s.node, s.db, s.log)
    ensures Lost(Next(s, step).node, s.db, d) <==> Lost(s.node, s.db, d)
  {
    hide Books, MayClose, Open;
    var Invites(c, u, conv, kind, member, members, blocked, now) := step;
    var n := s.node;
    if Open(s.db, d) && InviteAnswerOf(n, u, conv, member, members, blocked).Reserved? {
      OpenIsKnown(n, s.db, s.log, d);
      var n' := Next(s, step).node;
      var last := n'.batches[|n.batches|];
      assert last.op.call == c != d.call;
      assert !MayClose(last, d) by { if MayClose(last, d) { CloserIsOfCall(last, d); } }
      SentCloser(n, n', d);
    }
  }

  lemma SentCloser(n: Node, n': Node, d: Debt)
    requires |n'.batches| == |n.batches| + 1 && forall j | 0 <= j < |n.batches| :: n'.batches[j] == n.batches[j]
    ensures HasCloser(n', d) <==> HasCloser(n, d) || MayClose(n'.batches[|n.batches|], d)
  {
    hide MayClose;
    if j :| 0 <= j < |n.batches| && MayClose(n.batches[j], d) { assert MayClose(n'.batches[j], d); }
  }

  // ----- an answered batch -------------------------------------------------------------------

  lemma ExecuteKeepsOpen(db: Db, op: Op, now: int, d: Debt)
    requires Open(db, d) && !MayClose(Batch(op, InFlight), d) && !(op.InsertCall? && op.call == d.call)
    ensures Open(Execute(db, op, now), d)
  {
  }

  /** What is open after a commit was open before, and was not closed by it, unless the batch now stands for it. */
  lemma ExecuteCloses(db: Db, op: Op, now: int, d: Debt)
    requires Open(Execute(db, op, now), d) && !MayClose(Batch(op, Committed), d)
    ensures Open(db, d) && !MayClose(Batch(op, InFlight), d)
  {
  }

  lemma CommitLosesNothing(n: Node, i: nat, now: int, db: Db, log: Log, d: Debt)
    requires Books(n, db, log) && i < |n.batches| && n.batches[i].phase.InFlight?
    ensures Lost(Answered(n, i, Committed), Execute(db, n.batches[i].op, now), d) <==> Lost(n, db, d)
  {
    hide Books, Open, MayClose, Execute, HasCloser;
    var (op, n', db') := (n.batches[i].op, Answered(n, i, Committed), Execute(db, n.batches[i].op, now));
    CloserAfter(n, n', i, d);
    assert n.batches[i] == Batch(op, InFlight) && n'.batches[i] == Batch(op, Committed);
    if Lost(n, db, d) {
      OpenIsKnown(n, db, log, d);
      assert !MayClose(n.batches[i], d) by { NoCloser(n, i, d); }
      ExecuteKeepsOpen(db, op, now, d);
      assert !MayClose(n'.batches[i], d) by { CommittedCloser(op, d); }
    }
    if Lost(n', db', d) {
      assert !MayClose(n'.batches[i], d) by { NoCloser(n', i, d); }
      ExecuteCloses(db, op, now, d);
    }
  }

  lemma NoCloser(n: Node, i: nat, d: Debt)
    requires i < |n.batches| && !HasCloser(n, d)
    ensures !MayClose(n.batches[i], d)
  {
    hide MayClose;
  }

  lemma CommittedCloser(op: Op, d: Debt)
    requires !(op.InsertCall? && op.call == d.call)
    ensures MayClose(Batch(op, Committed), d) ==> MayClose(Batch(op, InFlight), d)
  {
  }

  lemma FailLosesExactly(s: Server, i: nat, d: Debt)
    requires i < |s.node.batches| && s.node.batches[i].phase.InFlight?
    ensures Lost(Answered(s.node, i, Failed), s.db, d) <==> Lost(s.node, s.db, d) || Loses(s, BatchFails(i), d)
  {
    hide Open, MayClose;
    var (n, n') := (s.node, Answered(s.node, i, Failed));
    CloserAfter(n, n', i, d);
    FailedClosesNothing(n'.batches[i], d);
    if n.mem.Live(d.call) {
    } else if HasCloser(n, d) && !HasCloser(n', d) {
      assert MayClose(n.batches[i], d);
      forall j | 0 <= j < |n.batches| && j != i ensures !MayClose(n.batches[j], d) { assert n'.batches[j] == n.batches[j]; }
    } else if HasCloser(n', d) {
      var j :| 0 <= j < |n'.batches| && MayClose(n'.batches[j], d);
      assert j != i && MayClose(n.batches[j], d);
    }
  }

  lemma FailedClosesNothing(b: Batch, d: Debt)
    requires b.phase.Failed? || b.phase.Closed?
    ensures !MayClose(b, d)
  {
  }

  // ----- a continuation ----------------------------------------------------------------------

  /** Closing an answered batch that stood for nothing of this debt, the call's life unchanged. */
  lemma CloseLosesNothing(n: Node, i: nat, n': Node, db: Db, d: Debt)
    requires i < |n.batches| && n'.batches == Close(n, i).batches && (n'.mem.Live(d.call) <==> n.mem.Live(d.call))
    requires !MayClose(n.batches[i], d) || n.mem.Live(d.call)
    ensures Lost(n', db, d) <==> Lost(n, db, d)
  {
    hide Open, MayClose, HasCloser;
    CloserAfter(n, n', i, d);
    FailedClosesNothing(n'.batches[i], d);
  }

  /** The handler sends the very batch that will close it, and it closes nothing else. */
  lemma HandsOver(n: Node, i: nat, op: Op, db: Db, d: Debt)
    requires i < |n.batches| && (n.batches[i].phase.Committed? || n.batches[i].phase.Failed?)
    requires MayClose(n.batches[i], d) <==> MayClose(Batch(op, InFlight), d)
    ensures Lost(Send(Close(n, i), op), db, d) <==> Lost(n, db, d)
  {
    hide Open, MayClose, HasCloser;
    var (n1, n') := (Close(n, i), Send(Close(n, i), op));
    CloserAfter(n, n1, i, d);
    FailedClosesNothing(n1.batches[i], d);
    SentCloser(n1, n', d);
    if MayClose(n.batches[i], d) { HasOne(n, i, d); }
  }

  lemma HasOne(n: Node, i: nat, d: Debt)
    requires i < |n.batches| && MayClose(n.batches[i], d)
    ensures HasCloser(n, d)
  {
  }

  lemma InsertHandsOver(c: CallId, b: Batch, d: Debt)
    requires b.op.InsertCall? && b.op.call == c && b.phase.Committed?
    ensures MayClose(b, d) <==> MayClose(Batch(StampOrphan(c), InFlight), d)
  {
  }

  lemma JoinHandsOver(c: CallId, u: UserId, b: Batch, d: Debt)
    requires b.op.UpsertJoin? && b.op.call == c && b.op.user == u && b.phase.Committed?
    ensures MayClose(b, d) <==> MayClose(Batch(Restamp(c, u), InFlight), d)
  {
  }

  lemma NoStanding(b: Batch, d: Debt)
    requires b.phase.Failed? || (b.phase.Committed? && !b.op.InsertCall? && !b.op.UpsertJoin?)
    ensures !MayClose(b, d)
  {
  }

  lemma GoOnLosesNothing(n: Node, i: nat, db: Db, log: Log, d: Debt)
    requires Books(n, db, log) && IsAnswered(n, i)
    ensures Lost(GoOn(n, i), db, d) <==> Lost(n, db, d)
  {
    hide Books, MayClose, HasCloser, Open, SetRingTimer, Remove;
    var b := n.batches[i];
    var (c, n') := (b.op.call, GoOn(n, i));
    LifeAfterGoOn(n, i, d.call);
    if b.op.InsertCall? && b.phase.Failed? && d.call == c {
      if Open(db, d) { OpenIsKnown(n, db, log, d); }
    } else if b.op.InsertCall? && b.phase.Committed? && !n.mem.Live(c) {
      InsertHandsOver(c, b, d);
      HandsOver(n, i, StampOrphan(c), db, d);
    } else if b.op.UpsertJoin? && b.phase.Committed? && !n.mem.Live(c) {
      JoinHandsOver(c, b.op.user, b, d);
      HandsOver(n, i, Restamp(c, b.op.user), db, d);
    } else {
      if MayClose(b, d) { CloserIsOfCall(b, d); if !n.mem.Live(c) { NoStanding(b, d); } }
      if b.op.Finalize? { FinalizedIsDead(n, i, db, log); }
      CloseLosesNothing(n, i, n', db, d);
    }
  }

  lemma FinalizedIsDead(n: Node, i: nat, db: Db, log: Log)
    requires Books(n, db, log) && i < |n.batches| && n.batches[i].op.Finalize?
    ensures !n.mem.Live(n.batches[i].op.call)
  {
    hide InsertsOnce, BubblesOnce, RowsOwed, PartsOwed, PartsHaveCalls, IdsUsed;
  }

  /** A continuation brings nothing to life, and ends only what it removes. */
  lemma LifeAfterGoOn(n: Node, i: nat, c: CallId)
    requires IsAnswered(n, i)
    ensures var b := n.batches[i];
            var removes := b.op.call == c && (b.op.Finalize? || (b.op.InsertCall? && b.phase.Failed?));
            GoOn(n, i).mem.Live(c) <==> n.mem.Live(c) && !removes
  {
    hide MarkLeft, RevertOngoing, SetRingTimer;
    var b := n.batches[i];
    if b.op.UpsertJoin? {
      MutatorsKeepLife(n.mem, b.op.call, b.op.user, c);
      MutatorsKeepLife(MarkLeft(n.mem, b.op.call, b.op.user), b.op.call, b.op.user, c);
    } else if b.op.InsertCall? {
      var t := RingTimer(n.mem.issued, b.op.call);
      ArmingKeepsLife(n.mem.(armed := n.mem.armed + {t}, issued := n.mem.issued + 1), b.op.call, t, c);
    }
  }

  lemma MutatorsKeepLife(m: Mem, c: CallId, u: UserId, d: CallId)
    ensures MarkLeft(m, c, u).Live(d) <==> m.Live(d)
    ensures RevertOngoing(m, c).Live(d) <==> m.Live(d)
  {
  }

  lemma ArmingKeepsLife(m: Mem, c: CallId, t: Timer, d: CallId)
    ensures SetRingTimer(m, c, t).Live(d) <==> m.Live(d)
  {
  }

  // ----- every step ------------------------------------------------------------------------------

  lemma SweepLosesExactly(s: Server, c: CallId, now: int, d: Debt)
    requires Stuck(s.node.mem, c, now)
    ensures Lost(SweepOne(s.node, c, now), s.db, d) <==> Lost(s.node, s.db, d) || Loses(s, SweeperFires(c, now), d)
  {
    hide Open, MayClose, HasCloser;
    var (n, n') := (s.node, SweepOne(s.node, c, now));
    SentCloser(n, n', d);
    SweptCloser(c, d);
    assert n'.mem.Live(d.call) <==> n.mem.Live(d.call) && d.call != c;
  }

  lemma SweptCloser(c: CallId, d: Debt)
    ensures MayClose(Batch(StampSwept(c), InFlight), d) <==> d == RowOf(c)
  {
  }

  /** A row is lost after a step exactly when it was before, or the step loses it. */
  lemma StepLosesExactly(s: Server, step: Step, d: Debt)
    requires Books(s.node, s.db, s.log) && Enabled(s, step)
    ensures var s' := Next(s, step);
            Lost(s'.node, s'.db, d) <==> Lost(s.node, s.db, d) || Loses(s, step, d)
  {
    hide Lost, Books, Ordinary, GoOn, Rolled, Execute, Answered, SweepOne;
    var n := s.node;
    match step
    case Invites(_, _, _, _, _, _, _, _) => InviteLosesNothing(s, step, d);
    case BatchCommits(i, now) => CommitLosesNothing(n, i, now, s.db, s.log, d);
    case BatchFails(i) => FailLosesExactly(s, i, d);
    case HandlerGoesOn(i) => GoOnLosesNothing(n, i, s.db, s.log, d);
    case SweeperFires(c, now) =>
      if Stuck(n.mem, c, now) { SweepLosesExactly(s, c, now, d); } else { NotSwept(n, c, now); }
    case _ =>
      OrdinarySteps(s, step, d.call);
      OrdinaryLosesNothing(n, Next(s, step).node, s.db, d);
  }
}
