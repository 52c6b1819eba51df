/** The tables against memory: what the row of a live and of a finished call says, and that join times are written once. */
module CallTables {
  import opened Common
  import opened CallModel
  import opened CallSegments
  import opened CallProtocol
  import opened CallBooks
  import opened CallSteps
  import opened CallRings
  import opened CallTheorems

  // ----- the invariant ---------------------------------------------------------------------

  /** A stamp that makes a row terminal. */
  predicate StampOf(b: Batch, c: CallId) {
    b.op.call == c && (b.op.Finalize? || b.op.StampOrphan? || b.op.StampSwept?)
  }

  /** The join that answered the call, while its handler waits. */
  predicate Answering(b: Batch, c: CallId) {
    b.op.call == c && b.op.UpsertJoin? && b.op.becameOngoing && !b.phase.Closed?
  }

  ghost predicate NoStamp(n: Node, c: CallId) { forall i | 0 <= i < |n.batches| :: !StampOf(n.batches[i], c) }

  ghost predicate OneAnswer(n: Node, c: CallId) {
    forall i, j | 0 <= i < |n.batches| && 0 <= j < |n.batches| && Answering(n.batches[i], c) && Answering(n.batches[j], c) :: i == j
  }

  predicate RowIs(db: Db, c: CallId, status: Status) { c in db.rows ==> db.rows[c] == CallRow(status, None) }

  /** While an answer is waited for, the row still rings until that answer commits; otherwise it is as memory says. */
  ghost predicate RowTells(n: Node, db: Db, c: CallId)
    requires n.mem.Live(c)
  {
    && (forall i | 0 <= i < |n.batches| && Answering(n.batches[i], c) ::
          && n.mem.calls[c].status.Ongoing?
          && RowIs(db, c, if n.batches[i].phase.Committed? then Ongoing else Ringing)
          && (n.batches[i].phase.Committed? ==> c in db.rows))
    && ((forall i | 0 <= i < |n.batches| :: !Answering(n.batches[i], c)) ==>
          && RowIs(db, c, n.mem.calls[c].status)
          && (c !in db.rows ==> n.mem.calls[c].status.Ringing?))
  }

  ghost predicate RowAt(n: Node, db: Db, c: CallId) {
    n.mem.Live(c) ==> NoStamp(n, c) && OneAnswer(n, c) && RowTells(n, db, c)
  }

  // ----- one batch changes phase, or a tail is added ------------------------------------------

  /** Nothing that matters to the call's row: its status stays, and no stamp or answer of it is added. */
  lemma TailKeepsRow(n: Node, n': Node, db: Db, c: CallId)
    requires RowAt(n, db, c) && (n'.mem.Live(c) ==> n.mem.Live(c) && n'.mem.calls[c].status == n.mem.calls[c].status)
    requires |n.batches| <= |n'.batches| && forall i | 0 <= i < |n.batches| :: n'.batches[i] == n.batches[i]
    requires n'.mem.Live(c) ==> forall i | |n.batches| <= i < |n'.batches| :: !StampOf(n'.batches[i], c) && !Answering(n'.batches[i], c)
    ensures RowAt(n', db, c)
  {
    hide StampOf, Answering, RowIs;
  }

  lemma SettledKeepsRow(n: Node, n': Node, db: Db, c: CallId, now: int)
    requires RowAt(n, db, c) && Settled(n, n', c, now)
    ensures RowAt(n', db, c)
  {
    hide RowAt;
    TailKeepsRow(n, n', db, c);
  }

  lemma JoinKeepsRow(n: Node, d: CallId, u: UserId, member: bool, now: int, db: Db, c: CallId)
    requires RowAt(n, db, c)
    ensures RowAt(Join(n, d, u, member, now), db, c)
  {
    hide MarkJoined;
    var n' := Join(n, d, u, member, now);
    match JoinAnswerOf(n, d, u, member)
    case Joined(already, became) =>
      JoinedStatus(n.mem, d, u, now, c);
      if c == d && became { AnswerKeepsRow(n, n', u, db, c); } else { hide RowAt; TailKeepsRow(n, n', db, c); }
    case _ =>
  }

  lemma JoinedStatus(m: Mem, d: CallId, u: UserId, now: int, c: CallId)
    requires m.Live(d)
    ensures var m' := MarkJoined(m, d, u, now);
            && (m'.Live(c) <==> m.Live(c))
            && (m.Live(c) ==> m'.calls[c].status == if c == d && !m.IsJoined(c, u) then Ongoing else m.calls[c].status)
  {
  }

  lemma AnswerKeepsRow(n: Node, n': Node, u: UserId, db: Db, c: CallId)
    requires RowAt(n, db, c) && RingsOn(n.mem, c) && n'.mem.Live(c) && n'.mem.calls[c].status.Ongoing?
    requires n'.batches == n.batches + [Batch(UpsertJoin(c, u, false, true), InFlight)]
    ensures RowAt(n', db, c)
  {
    hide RowIs;
    var last := |n.batches|;
    assert Answering(n'.batches[last], c) && !StampOf(n'.batches[last], c);
    forall i | 0 <= i < last ensures !Answering(n'.batches[i], c) && !StampOf(n'.batches[i], c) {
      assert n'.batches[i] == n.batches[i];
    }
    assert RowIs(db, c, Ringing);
  }

  lemma InviteKeepsRow(s: Server, step: Step, c: CallId)
    requires Enabled(s, step) && step.Invites? && Books(s.node, s.db, s.log) && RowAt(s.node, s.db, c)
    ensures RowAt(Next(s, step).node, s.db, c)
  {
    hide FinalizesOnce, BubblesOnce, RowsOwed, PartsOwed, InsertsOnce, PartsHaveCalls;
    FreshId(s, step.c);
    var (n, n') := (s.node, Next(s, step).node);
    if c == step.c {
      forall i | 0 <= i < |n'.batches| ensures !StampOf(n'.batches[i], c) && !Answering(n'.batches[i], c) {
        if i < |n.batches| { assert n.batches[i] in n.batches && n'.batches[i] == n.batches[i]; }
      }
    } else {
      hide RowAt;
      TailKeepsRow(n, n', s.db, c);
    }
  }

  /** One batch has changed phase, and the tables as that says. */
  lemma PhaseKeepsRow(n: Node, i: nat, phase: Phase, db: Db, db': Db, c: CallId)
    requires RowAt(n, db, c) && i < |n.batches| && n.batches[i].phase.InFlight? && (phase.Committed? || phase.Failed?)
    requires Answering(n.batches[i], c) ==> RowIs(db', c, if phase.Committed? then Ongoing else Ringing) && (phase.Committed? ==> c in db'.rows)
    requires !Answering(n.batches[i], c) && n.mem.Live(c) ==>
      if c in db.rows then c in db'.rows && db'.rows[c] == db.rows[c] else c in db'.rows ==> db'.rows[c] == CallRow(Ringing, None)
    ensures RowAt(Answered(n, i, phase), db', c)
  {
    var n' := Answered(n, i, phase);
    forall j | 0 <= j < |n.batches| ensures Answering(n'.batches[j], c) == Answering(n.batches[j], c) && StampOf(n'.batches[j], c) == StampOf(n.batches[j], c) {}
    hide StampOf, Answering;
    if n.mem.Live(c) && Answering(n.batches[i], c) {
      forall j | 0 <= j < |n.batches| && Answering(n'.batches[j], c) ensures j == i {}
    } else if n.mem.Live(c) {
      forall j | 0 <= j < |n.batches| && Answering(n'.batches[j], c) ensures n'.batches[j] == n.batches[j] {}
    }
  }

  lemma CommitKeepsRow(n: Node, i: nat, now: int, db: Db, c: CallId)
    requires InsertsOnce(n, db) && RowAt(n, db, c)
    requires i < |n.batches| && n.batches[i].phase.InFlight? && ForeignKeyHolds(db, n.batches[i].op)
    ensures RowAt(Answered(n, i, Committed), Execute(db, n.batches[i].op, now), c)
  {
    var (b, db') := (n.batches[i], Execute(db, n.batches[i].op, now));
    if n.mem.Live(c) { assert !StampOf(b, c); }
    if Answering(b, c) && n.mem.Live(c) { assert RowIs(db, c, Ringing); }
    if n.mem.Live(c) {
      RowAfter(db, b.op, now, c);
      hide RowAt, Execute;
      PhaseKeepsRow(n, i, Committed, db, db', c);
    }
  }

  /** What a transaction does to the row of one call. */
  lemma RowAfter(db: Db, op: Op, now: int, c: CallId)
    requires ForeignKeyHolds(db, op)
    ensures var db' := Execute(db, op, now);
            && (op.call != c ==> (c in db'.rows <==> c in db.rows) && (c in db.rows ==> db'.rows[c] == db.rows[c]))
            && (op.call == c && op.InsertCall? ==> c in db'.rows && db'.rows[c] == CallRow(Ringing, None))
            && (op.call == c && op.UpsertJoin? ==>
                  c in db'.rows
                  && db'.rows[c] == (if op.becameOngoing && db.rows[c].status.Ringing? then db.rows[c].(status := Ongoing) else db.rows[c]))
            && (op.Restamp? || op.StampLeft? ==> db'.rows == db.rows)
            && (op.call == c && op.Finalize? ==> c in db'.rows && db'.rows[c] == CallRow(op.verdict, Some(now)))
            && (op.call == c && (op.StampOrphan? || op.StampSwept?) && c in db.rows ==> c in db'.rows && db'.rows[c] == CallRow(Missed, Some(now)))
            && (c in db.rows ==> c in db'.rows)
  {
  }

  lemma FailKeepsRow(n: Node, i: nat, db: Db, c: CallId)
    requires RowAt(n, db, c) && i < |n.batches| && n.batches[i].phase.InFlight?
    ensures RowAt(Answered(n, i, Failed), db, c)
  {
    if n.mem.Live(c) { PhaseKeepsRow(n, i, Failed, db, db, c); }
  }

  lemma GoOnStatus(n: Node, i: nat, c: CallId)
    requires IsAnswered(n, i)
    ensures var (b, m') := (n.batches[i], GoOn(n, i).mem);
            && (m'.Live(c) ==> n.mem.Live(c))
            && (m'.Live(c) ==>
                  m'.calls[c].status == (if Answering(b, c) && b.phase.Failed? then Ringing else n.mem.calls[c].status))
  {
    hide MarkLeft, RevertOngoing, SetRingTimer, Remove;
    var op := n.batches[i].op;
    var u := if op.UpsertJoin? then op.user else 0;
    var ring := RingTimer(n.mem.issued, op.call);
    var armed := n.mem.(armed := n.mem.armed + {ring}, issued := n.mem.issued + 1);
    StatusAfter(n.mem, op.call, u, ring, c);
    StatusAfter(MarkLeft(n.mem, op.call, u), op.call, u, ring, c);
    StatusAfter(armed, op.call, u, ring, c);
  }

  lemma StatusAfter(m: Mem, d: CallId, u: UserId, ring: Timer, c: CallId)
    ensures MarkLeft(m, d, u).Live(c) <==> m.Live(c)
    ensures m.Live(c) ==> MarkLeft(m, d, u).calls[c].status == m.calls[c].status
    ensures RevertOngoing(m, d).Live(c) <==> m.Live(c)
    ensures m.Live(c) ==> RevertOngoing(m, d).calls[c].status == if c == d then Ringing else m.calls[c].status
    ensures SetRingTimer(m, d, ring).Live(c) <==> m.Live(c)
    ensures m.Live(c) ==> SetRingTimer(m, d, ring).calls[c].status == m.calls[c].status
    ensures Remove(m, d).Live(c) <==> m.Live(c) && c != d
    ensures Remove(m, d).Live(c) ==> Remove(m, d).calls[c] == m.calls[c]
  {
  }

  lemma GoOnBatches(n: Node, i: nat, c: CallId)
    requires IsAnswered(n, i)
    ensures var n' := GoOn(n, i);
            && |n.batches| <= |n'.batches|
            && (forall j | 0 <= j < |n.batches| :: n'.batches[j] == if j == i then n.batches[i].(phase := Closed) else n.batches[j])
            && (forall j | |n.batches| <= j < |n'.batches| ::
                  && !n'.batches[j].op.Finalize? && !n'.batches[j].op.StampSwept? && !n'.batches[j].op.UpsertJoin?
                  && (n'.mem.Live(c) && n'.batches[j].op.call == c ==> !n'.batches[j].op.StampOrphan?))
  {
    hide MarkLeft, RevertOngoing, SetRingTimer, Remove;
  }

  lemma GoOnKeepsRow(n: Node, i: nat, db: Db, c: CallId)
    requires IsAnswered(n, i) && RowAt(n, db, c)
    ensures RowAt(GoOn(n, i), db, c)
  {
    hide GoOn, RowIs;
    GoOnStatus(n, i, c);
    GoOnBatches(n, i, c);
    var n' := GoOn(n, i);
    if n'.mem.Live(c) {
      forall j | 0 <= j < |n'.batches| ensures !StampOf(n'.batches[j], c) {
        if j < |n.batches| { assert !StampOf(n.batches[j], c); }
      }
      forall j | 0 <= j < |n'.batches| && Answering(n'.batches[j], c)
        ensures j < |n.batches| && j != i && Answering(n.batches[j], c) && n'.batches[j] == n.batches[j] {}
      if Answering(n.batches[i], c) {
        forall j | 0 <= j < |n'.batches| ensures !Answering(n'.batches[j], c) {}
      } else if j :| 0 <= j < |n.batches| && Answering(n.batches[j], c) {
        assert Answering(n'.batches[j], c);
      }
    }
  }

  lemma SweepKeepsRow(n: Node, d: CallId, now: int, db: Db, c: CallId)
    requires RowAt(n, db, c)
    ensures RowAt(SweepOne(n, d, now), db, c)
  {
    hide RowAt, Remove;
    if Stuck(n.mem, d, now) {
      StatusAfter(n.mem, d, 0, RingTimer(0, 0), c);
      TailKeepsRow(n, SweepOne(n, d, now), db, c);
    }
  }

  lemma StepKeepsRow(s: Server, step: Step, c: CallId)
    requires Inv(s) && Enabled(s, step) && RowAt(s.node, s.db, c)
    ensures RowAt(Next(s, step).node, Next(s, step).db, c)
  {
    hide RowAt, Inv, GoOn, Rolled, SweepOne, Answered, Execute, Join, Settled, Blame, ForeignKeyHolds;
    BooksOf(s);
    var n := s.node;
    match step
    case Invites(_, _, _, _, _, _, _, _) => InviteKeepsRow(s, step, c);
    case BatchCommits(i, now) => CommitKeepsRow(n, i, now, s.db, c);
    case BatchFails(i) => FailKeepsRow(n, i, s.db, c);
    case HandlerGoesOn(i) => GoOnKeepsRow(n, i, s.db, c);
    case SweeperFires(d, now) => SweepKeepsRow(n, d, now, s.db, c);
    case Joins(d, u, _, member, now) => JoinKeepsRow(n, d, u, member, now, s.db, c);
    case _ =>
      SettledSteps(s, step, c);
      SettledKeepsRow(n, Next(s, step).node, s.db, c, Clock(step));
  }

  lemma BooksOf(s: Server)
    requires Inv(s)
    ensures Books(s.node, s.db, s.log) && InsertsOnce(s.node, s.db) && FinalizesOnce(s.node) && BubblesOnce(s.node, s.db)
    ensures PartsHaveCalls(s.db)
  {
  }

  // ----- rows and bubbles -----------------------------------------------------------------------

  predicate Orphaned(n: Node, c: CallId) { exists i | 0 <= i < |n.batches| :: n.batches[i].op.StampOrphan? && n.batches[i].op.call == c }

  /** A call is finished or swept, not both. */
  ghost predicate NotBoth(n: Node) {
    forall i, j | 0 <= i < |n.batches| && 0 <= j < |n.batches| && n.batches[i].op.Finalize? && n.batches[j].op.StampSwept? ::
      n.batches[i].op.call != n.batches[j].op.call
  }

  /** The row carries its bubble's verdict, or the MISSED of an invite that came back to a call already over. */
  ghost predicate VerdictIn(n: Node, db: Db, b: Bubble) {
    && b.call in db.rows && db.rows[b.call].endedAt.Some?
    && (exists i | 0 <= i < |n.batches| :: FinalizerOf(n.batches[i], b.call))
    && (db.rows[b.call].status == b.verdict || (db.rows[b.call].status.Missed? && Orphaned(n, b.call)))
  }

  ghost predicate Tables(s: Server) {
    && (forall c :: RowAt(s.node, s.db, c))
    && NotBoth(s.node)
    && forall b | b in s.db.bubbles :: VerdictIn(s.node, s.db, b)
  }

  /** Batches keep what they say, and of a live call alone a stamp of its end may be new. */
  lemma NewStamps(s: Server, step: Step)
    requires Inv(s) && Enabled(s, step)
    ensures var (n, n') := (s.node, Next(s, step).node);
            && |n.batches| <= |n'.batches|
            && (forall i | 0 <= i < |n.batches| :: n'.batches[i].op == n.batches[i].op)
            && (forall i | |n.batches| <= i < |n'.batches| && (n'.batches[i].op.Finalize? || n'.batches[i].op.StampSwept?) ::
                  n.mem.Live(n'.batches[i].op.call))
            && (forall i, j | |n.batches| <= i < |n'.batches| && |n.batches| <= j < |n'.batches| && n'.batches[i].op.Finalize? ::
                  !n'.batches[j].op.StampSwept?)
  {
    hide Inv, GoOn, Rolled, Execute, MarkJoined, Create, Remove, Settled, Blame;
    var (n, n') := (s.node, Next(s, step).node);
    if step.HandlerGoesOn? {
      GoOnBatches(n, step.i, 0);
    } else if IsOrdinary(step) {
      hide Next;
      forall i | |n.batches| <= i < |n'.batches| ensures n.mem.Live(n'.batches[i].op.call) && !n'.batches[i].op.StampSwept? {
        OrdinarySteps(s, step, n'.batches[i].op.call);
      }
      OrdinarySteps(s, step, 0);
    }
  }

  lemma StepKeepsNotBoth(s: Server, step: Step)
    requires Inv(s) && Enabled(s, step) && NotBoth(s.node) && forall c :: RowAt(s.node, s.db, c)
    ensures NotBoth(Next(s, step).node)
  {
    hide Inv, Next, OneAnswer, RowTells;
    NewStamps(s, step);
    var (n, n') := (s.node, Next(s, step).node);
    forall i, j | 0 <= i < |n'.batches| && 0 <= j < |n'.batches| && n'.batches[i].op.Finalize? && n'.batches[j].op.StampSwept?
      ensures n'.batches[i].op.call != n'.batches[j].op.call
    {
      if i < |n.batches| <= j {
        assert RowAt(n, s.db, n'.batches[j].op.call) && n.mem.Live(n'.batches[j].op.call);
        assert !StampOf(n.batches[i], n'.batches[j].op.call);
      } else if j < |n.batches| <= i {
        assert RowAt(n, s.db, n'.batches[i].op.call) && n.mem.Live(n'.batches[i].op.call);
        assert !StampOf(n.batches[j], n'.batches[i].op.call);
      }
    }
  }

  lemma VerdictStays(s: Server, step: Step, b: Bubble)
    requires Inv(s) && Enabled(s, step) && NotBoth(s.node) && b in s.db.bubbles && VerdictIn(s.node, s.db, b)
    ensures VerdictIn(Next(s, step).node, Next(s, step).db, b)
  {
    hide Inv, GoOn, Invite, Join, Kick, Disconnect, RingExpires, GraceExpires, Rolled, Blame, Reject, Leave, Cancel, Connect, SweepOne, Execute,
      VerdictIn, NotBoth;
    NewStamps(s, step);
    OpsKeepVerdict(s.node, Next(s, step).node, s.db, b);
    if step.BatchCommits? { CommitKeepsVerdict(s, step.i, step.now, b); }
  }

  lemma OpsKeepVerdict(n: Node, n': Node, db: Db, b: Bubble)
    requires VerdictIn(n, db, b) && |n.batches| <= |n'.batches|
    requires forall i | 0 <= i < |n.batches| :: n'.batches[i].op == n.batches[i].op
    ensures VerdictIn(n', db, b)
  {
    var k :| 0 <= k < |n.batches| && FinalizerOf(n.batches[k], b.call);
    assert FinalizerOf(n'.batches[k], b.call);
    if Orphaned(n, b.call) {
      var i :| 0 <= i < |n.batches| && n.batches[i].op.StampOrphan? && n.batches[i].op.call == b.call;
      assert n'.batches[i].op == n.batches[i].op;
    }
  }

  lemma CommitKeepsVerdict(s: Server, i: nat, now: int, b: Bubble)
    requires Inv(s) && Enabled(s, BatchCommits(i, now)) && NotBoth(s.node) && b in s.db.bubbles && VerdictIn(s.node, s.db, b)
    ensures VerdictIn(Answered(s.node, i, Committed), Execute(s.db, s.node.batches[i].op, now), b)
  {
    hide Inv, Execute;
    BooksOf(s);
    var (n, n', op) := (s.node, Answered(s.node, i, Committed), s.node.batches[i].op);
    OpsKeepVerdict(n, n', s.db, b);
    RowAfter(s.db, op, now, b.call);
    if op.call == b.call {
      assert !op.InsertCall? && !op.StampSwept?;
      assert HasBubble(s.db, b.call);
      if op.StampOrphan? { assert n'.batches[i].op == op; }
    }
  }

  lemma NewBubble(s: Server, step: Step, b: Bubble)
    requires Inv(s) && Enabled(s, step) && b in Next(s, step).db.bubbles && b !in s.db.bubbles
    ensures VerdictIn(Next(s, step).node, Next(s, step).db, b)
  {
    hide Inv, GoOn, Invite, Join, Kick, Disconnect, RingExpires, GraceExpires, Rolled, Blame, Reject, Leave, Cancel, Connect, SweepOne;
    var op := s.node.batches[step.i].op;
    RowAfter(s.db, op, step.now, b.call);
    assert b == Bubble(op.call, op.verdict, op.kind, op.durationSec);
    assert FinalizerOf(Next(s, step).node.batches[step.i], b.call);
  }

  lemma StepKeepsTables(s: Server, step: Step)
    requires Inv(s) && Enabled(s, step) && Tables(s)
    ensures Tables(Next(s, step))
  {
    hide Inv, Next, Enabled, RowAt, NotBoth, VerdictIn;
    StepKeepsNotBoth(s, step);
    forall c ensures RowAt(Next(s, step).node, Next(s, step).db, c) { StepKeepsRow(s, step, c); }
    forall b | b in Next(s, step).db.bubbles ensures VerdictIn(Next(s, step).node, Next(s, step).db, b) {
      if b in s.db.bubbles { VerdictStays(s, step, b); } else { NewBubble(s, step, b); }
    }
  }

  lemma {:induction false} TablesHold(steps: seq<Step>)
    requires After(steps).Some?
    ensures Tables(After(steps).value)
  {
    hide Tables, Next, Enabled, Inv;
    if steps == [] {
      assert Tables(INITIAL) by { EmptyTables(); }
    } else {
      var front := steps[..|steps|-1];
      TablesHold(front);
      RunKeepsInv(front);
      StepKeepsTables(After(front).value, steps[|steps|-1]);
    }
  }

  lemma EmptyTables()
    ensures Tables(INITIAL)
  {
  }

  // ----- what it means ------------------------------------------------------------------------------

  /**
   The row of a live call is not ended, and says what memory says but while the join that
   answered it is still in flight: then it rings. Without a row the call rings, or is being answered.
   */
  lemma LiveRowTellsTheStatus(s: Server, c: CallId)
    requires Reachable(s) && s.node.mem.Live(c)
    ensures c in s.db.rows ==> s.db.rows[c].endedAt.None?
    ensures var answering := exists b :: b in s.node.batches && Answering(b, c) && !b.phase.Committed?;
            if answering then s.node.mem.calls[c].status.Ongoing? && (c in s.db.rows ==> s.db.rows[c].status.Ringing?)
            else if c in s.db.rows then s.db.rows[c].status == s.node.mem.calls[c].status
            else s.node.mem.calls[c].status.Ringing?
  {
    var steps :| After(steps) == Some(s);
    TablesHold(steps);
    hide StampOf, Answering, NotBoth, VerdictIn, Reachable, After;
    assert RowAt(s.node, s.db, c);
    var n := s.node;
    if i :| 0 <= i < |n.batches| && Answering(n.batches[i], c) {
      assert n.batches[i] in n.batches;
      forall b | b in n.batches && Answering(b, c) ensures b == n.batches[i] {}
    }
  }

  /**
   The row of a call with a bubble has the bubble's verdict and an end, unless its invite's
   handler came back to a call already over: that stamps MISSED whatever the bubble says.
   */
  lemma RowHasTheVerdict(s: Server, b: Bubble)
    requires Reachable(s) && b in s.db.bubbles
    ensures b.call in s.db.rows && s.db.rows[b.call].endedAt.Some?
    ensures s.db.rows[b.call].status == b.verdict || (s.db.rows[b.call].status.Missed? && Orphaned(s.node, b.call))
  {
    var steps :| After(steps) == Some(s);
    TablesHold(steps);
    assert VerdictIn(s.node, s.db, b);
  }

  // ----- the last stamp to land ------------------------------------------------------------------

  function StampedStatus(op: Op): Status {
    match op case Finalize(_, _, _, verdict, _, _) => verdict case _ => Missed
  }

  /** The step lands a terminal stamp on the call's row. */
  ghost predicate LandsStamp(s: Server, step: Step, c: CallId) {
    && step.BatchCommits? && step.i < |s.node.batches| && c in s.db.rows && StampOf(s.node.batches[step.i], c)
  }

  /** What the last stamp of the run to land on the row says. */
  ghost function LastStamp(steps: seq<Step>, c: CallId): Option<Status>
    requires After(steps).Some?
  {
    if steps == [] then None
    else
      var (front, step) := (steps[..|steps|-1], steps[|steps|-1]);
      var s := After(front).value;
      if LandsStamp(s, step, c) then Some(StampedStatus(s.node.batches[step.i].op)) else LastStamp(front, c)
  }

  lemma StampLands(s: Server, step: Step, c: CallId)
    requires Inv(s) && Enabled(s, step)
    ensures var (rows, rows') := (s.db.rows, Next(s, step).db.rows);
            && (c in rows ==> c in rows')
            && (LandsStamp(s, step, c) ==> c in rows && StampedStatus(s.node.batches[step.i].op).Terminal())
            && (LandsStamp(s, step, c) ==> rows'[c] == CallRow(StampedStatus(s.node.batches[step.i].op), Some(step.now)))
            && (!LandsStamp(s, step, c) && c in rows ==> rows'[c] == rows[c] || (rows[c].status.Ringing? && rows'[c].status.Ongoing?))
            && (c !in rows && c in rows' ==> rows'[c].status.Ringing?)
  {
    hide Inv, GoOn, Invite, Join, Kick, Disconnect, RingExpires, GraceExpires, Rolled, Blame, Reject, Leave, Cancel, Connect, SweepOne, Execute;
    BooksOf(s);
    if step.BatchCommits? {
      RowAfter(s.db, s.node.batches[step.i].op, step.now, c);
      if c !in s.db.rows && c in Next(s, step).db.rows { NewRow(s.db, s.node.batches[step.i].op, step.now, c); }
    }
  }

  lemma NewRow(db: Db, op: Op, now: int, c: CallId)
    requires ForeignKeyHolds(db, op) && c !in db.rows && c in Execute(db, op, now).rows
    ensures op.InsertCall? && op.call == c
  {
  }

  /** A row is terminal exactly when a stamp has landed on it, and then says what the last one said. */
  lemma {:induction false} RowIsTheLastStamp(steps: seq<Step>, c: CallId)
    requires After(steps).Some?
    ensures var (rows, last) := (After(steps).value.db.rows, LastStamp(steps, c));
            && (last.Some? ==> c in rows && rows[c].status == last.value && rows[c].status.Terminal() && rows[c].endedAt.Some?)
            && (c in rows && last.None? ==> !rows[c].status.Terminal())
  {
    hide Next, Enabled, LandsStamp, Inv;
    if steps == [] {
      assert After(steps) == Some(INITIAL);
    } else {
      var front := steps[..|steps|-1];
      RowIsTheLastStamp(front, c);
      RunKeepsInv(front);
      StampLands(After(front).value, steps[|steps|-1], c);
    }
  }

  // ----- join times --------------------------------------------------------------------------------

  function JoinTime(db: Db, c: CallId, u: UserId): Option<int> {
    if (c, u) in db.parts then db.parts[(c, u)].joinedAt else None
  }

  /** The step lands the user's first or a later join: as starter with the call's insert, or by a join of theirs. */
  ghost predicate LandsJoin(s: Server, step: Step, c: CallId, u: UserId) {
    && step.BatchCommits? && step.i < |s.node.batches|
    && var op := s.node.batches[step.i].op;
    op.call == c && ((op.InsertCall? && op.starter == u) || (op.UpsertJoin? && op.user == u))
  }

  /** joined_at is the time the first of them landed, and is never changed again. */
  lemma JoinTimeIsTheFirst(s: Server, step: Step, c: CallId, u: UserId)
    requires Reachable(s) && Enabled(s, step)
    ensures JoinTime(Next(s, step).db, c, u) ==
              if JoinTime(s.db, c, u).Some? then JoinTime(s.db, c, u) else if LandsJoin(s, step, c, u) then Some(step.now) else None
  {
    hide Inv, GoOn, Invite, Join, Kick, Disconnect, RingExpires, GraceExpires, Rolled, Blame, Reject, Leave, Cancel, Connect, SweepOne;
    ReachableInv(s);
    BooksOf(s);
    if step.BatchCommits? {
      var op := s.node.batches[step.i].op;
      if op.InsertCall? && op.call == c { assert (c, u) !in s.db.parts; }
      hide Execute, Reachable;
      PartAfter(s.db, op, step.now, c, u);
    }
  }

  lemma PartAfter(db: Db, op: Op, now: int, c: CallId, u: UserId)
    requires op.InsertCall? && op.call == c ==> (c, u) !in db.parts
    ensures JoinTime(Execute(db, op, now), c, u) ==
              if JoinTime(db, c, u).Some? then JoinTime(db, c, u)
              else if op.call == c && ((op.InsertCall? && op.starter == u) || (op.UpsertJoin? && op.user == u)) then Some(now) else None
  {
  }

  /** Over a whole run: once written, written for good. */
  lemma {:induction false} JoinTimesStay(before: seq<Step>, more: seq<Step>, c: CallId, u: UserId)
    requires After(before).Some? && After(before + more).Some? && JoinTime(After(before).value.db, c, u).Some?
    ensures JoinTime(After(before + more).value.db, c, u) == JoinTime(After(before).value.db, c, u)
    decreases |more|
  {
    hide Next, Enabled, JoinTime;
    if more == [] {
      assert before + more == before;
    } else {
      var shorter := more[..|more|-1];
      assert (before + more)[..|before + more|-1] == before + shorter;
      JoinTimesStay(before, shorter, c, u);
      JoinTimeIsTheFirst(After(before + shorter).value, more[|more|-1], c, u);
    }
  }

  function LeftTime(db: Db, c: CallId, u: UserId): Option<int> {
    if (c, u) in db.parts then db.parts[(c, u)].leftAt else None
  }

  /** The step lands a stamp that reaches the user's row: their own leave, or one that takes rows still open. */
  ghost predicate LandsLeave(s: Server, step: Step, c: CallId, u: UserId) {
    && step.BatchCommits? && step.i < |s.node.batches| && (c, u) in s.db.parts
    && var op := s.node.batches[step.i].op;
    op.call == c && ( || (op.StampLeft? && u in op.users)
                      || (op.Restamp? && op.user == u && s.db.parts[(c, u)].leftAt.None?)
                      || ((op.Finalize? || op.StampOrphan?) && OpenPart(s.db, c, u)))
  }

  ghost predicate LandsRejoin(s: Server, step: Step, c: CallId, u: UserId) {
    && step.BatchCommits? && step.i < |s.node.batches|
    && s.node.batches[step.i].op.UpsertJoin? && s.node.batches[step.i].op.call == c && s.node.batches[step.i].op.user == u
  }

  /** left_at is the time such a stamp landed; a join that lands takes it back, and nothing else touches it. */
  lemma LeftTimeIsTheStamps(s: Server, step: Step, c: CallId, u: UserId)
    requires Reachable(s) && Enabled(s, step)
    ensures LeftTime(Next(s, step).db, c, u) ==
              if LandsRejoin(s, step, c, u) then None
              else if LandsLeave(s, step, c, u) then Some(step.now) else LeftTime(s.db, c, u)
  {
    hide Inv, GoOn, Invite, Join, Kick, Disconnect, RingExpires, GraceExpires, Rolled, Blame, Reject, Leave, Cancel, Connect, SweepOne;
    ReachableInv(s);
    BooksOf(s);
    if step.BatchCommits? {
      var op := s.node.batches[step.i].op;
      if op.InsertCall? && op.call == c { assert (c, u) !in s.db.parts; }
      hide Execute, Reachable;
      LeftAfter(s.db, op, step.now, c, u);
    }
  }

  lemma LeftAfter(db: Db, op: Op, now: int, c: CallId, u: UserId)
    requires op.InsertCall? && op.call == c ==> (c, u) !in db.parts
    ensures LeftTime(Execute(db, op, now), c, u) ==
              if op.UpsertJoin? && op.call == c && op.user == u then None
              else if (c, u) in db.parts && op.call == c
                      && ( || (op.StampLeft? && u in op.users)
                           || (op.Restamp? && op.user == u && db.parts[(c, u)].leftAt.None?)
                           || ((op.Finalize? || op.StampOrphan?) && OpenPart(db, c, u))) then Some(now)
              else LeftTime(db, c, u)
  {
  }
}
