/**
 What every run keeps between memory and the database: each call has at most one
 insert, one finalizer and one bubble, and every row that is still open is owed a
 stamp by something that is live or in flight. A debt passes from the live call to
 the batch that ends it, from an insert or a join that comes late to the stamp its
 handler sends, and is settled when that lands.
 */
module CallBooks {
  import opened Common
  import opened CallModel
  import opened CallSegments
  import opened CallProtocol

  /** Calls whose books are only claimed up to a named fault. */
  function Excused(log: Log): set<CallId> { log.swept + log.stampFailed }

  // ----- the invariant ---------------------------------------------------------------

  ghost predicate IdsUsed(n: Node, db: Db, log: Log) {
    && n.mem.calls.Keys <= log.used
    && db.rows.Keys <= log.used
    && (forall b | b in n.batches :: b.op.call in log.used)
    && (forall x | x in db.bubbles :: x.call in log.used)
  }

  ghost predicate PartsHaveCalls(db: Db) {
    forall k | k in db.parts :: k.0 in db.rows
  }

  /** One insert per call; until it commits the call has no row, until it goes on no ring timer. */
  ghost predicate InsertsOnce(n: Node, db: Db) {
    && (forall i, j | 0 <= i < j < |n.batches| && n.batches[i].op.InsertCall? && n.batches[j].op.InsertCall? ::
          n.batches[i].op.call != n.batches[j].op.call)
    && (forall i | 0 <= i < |n.batches| && n.batches[i].op.InsertCall? ::
          && (n.batches[i].phase.InFlight? || n.batches[i].phase.Failed? ==> n.batches[i].op.call !in db.rows)
          && (!n.batches[i].phase.Closed? && n.batches[i].op.call in n.mem.calls ==>
                n.mem.calls[n.batches[i].op.call].ringTimer.None?))
  }

  predicate FinalizerOf(b: Batch, c: CallId) { b.op.Finalize? && b.op.call == c }

  /** One finalizer per call, never for a live one; a terminal record in memory still has its own pending. */
  ghost predicate FinalizesOnce(n: Node) {
    && (forall i, j | 0 <= i < j < |n.batches| && n.batches[i].op.Finalize? && n.batches[j].op.Finalize? ::
          n.batches[i].op.call != n.batches[j].op.call)
    && (forall i | 0 <= i < |n.batches| && n.batches[i].op.Finalize? :: !n.mem.Live(n.batches[i].op.call))
    && (forall c | c in n.mem.calls && n.mem.calls[c].terminal ::
          exists i | 0 <= i < |n.batches| :: FinalizerOf(n.batches[i], c) && !n.batches[i].phase.Closed?)
  }

  predicate HasBubble(db: Db, c: CallId) { exists x | x in db.bubbles :: x.call == c }

  /** One bubble per call, none before its finalizer commits. */
  ghost predicate BubblesOnce(n: Node, db: Db) {
    && (forall a, b | 0 <= a < b < |db.bubbles| :: db.bubbles[a].call != db.bubbles[b].call)
    && (forall c | n.mem.Live(c) :: !HasBubble(db, c))
    && (forall i | 0 <= i < |n.batches| && n.batches[i].op.Finalize? && n.batches[i].phase.InFlight? ::
          !HasBubble(db, n.batches[i].op.call))
  }

  /** The batches that will still close a call row, or whose handler will send one that does. */
  predicate OwesRow(b: Batch, c: CallId) {
    b.op.call == c &&
    ( || (b.op.Finalize? && b.phase.InFlight?)
      || (b.op.StampOrphan? && b.phase.InFlight?)
      || (b.op.InsertCall? && b.phase.Committed?))
  }

  predicate OwesPart(b: Batch, c: CallId, u: UserId) {
    || OwesRow(b, c)
    || (b.op.call == c && b.op.UpsertJoin? && b.op.user == u && b.phase.Committed?)
    || (b.op.call == c && b.op.Restamp? && b.op.user == u && b.phase.InFlight?)
  }

  ghost predicate RowOwed(n: Node, c: CallId) {
    n.mem.Live(c) || exists i | 0 <= i < |n.batches| :: OwesRow(n.batches[i], c)
  }

  ghost predicate PartOwed(n: Node, c: CallId, u: UserId) {
    n.mem.Live(c) || exists i | 0 <= i < |n.batches| :: OwesPart(n.batches[i], c, u)
  }

  predicate OpenRow(db: Db, c: CallId) { c in db.rows && !db.rows[c].status.Terminal() }

  predicate OpenPart(db: Db, c: CallId, u: UserId) {
    (c, u) in db.parts && db.parts[(c, u)].joinedAt.Some? && db.parts[(c, u)].leftAt.None?
  }

  ghost predicate RowsOwed(n: Node, db: Db, log: Log) {
    forall c | OpenRow(db, c) && c !in Excused(log) :: RowOwed(n, c)
  }

  ghost predicate PartsOwed(n: Node, db: Db, log: Log) {
    forall c, u | OpenPart(db, c, u) && c !in Excused(log) :: PartOwed(n, c, u)
  }

  ghost predicate Books(n: Node, db: Db, log: Log) {
    && IdsUsed(n, db, log)
    && PartsHaveCalls(db)
    && InsertsOnce(n, db)
    && FinalizesOnce(n)
    && BubblesOnce(n, db)
    && RowsOwed(n, db, log)
    && PartsOwed(n, db, log)
  }

  // ----- segments that leave the books alone --------------------------------------------

  /** Same calls, same terminal flags, no new ring handle: nothing the books speak of. */
  ghost predicate Quiet(m: Mem, m': Mem) {
    && m'.calls.Keys == m.calls.Keys
    && (forall c | c in m.calls ::
          && m'.calls[c].terminal == m.calls[c].terminal
          && (m'.calls[c].ringTimer == m.calls[c].ringTimer || m'.calls[c].ringTimer.None?))
  }

  lemma OwedStays(n: Node, n': Node, c: CallId, u: UserId)
    requires |n.batches| <= |n'.batches|
    requires n'.batches[..|n.batches|] == n.batches
    requires n.mem.Live(c) ==> n'.mem.Live(c)
    ensures RowOwed(n, c) ==> RowOwed(n', c)
    ensures PartOwed(n, c, u) ==> PartOwed(n', c, u)
  {
    forall i | 0 <= i < |n.batches| ensures n'.batches[i] == n.batches[i] {
      assert n'.batches[..|n.batches|][i] == n'.batches[i];
    }
    if RowOwed(n, c) && !n.mem.Live(c) {
      var i :| 0 <= i < |n.batches| && OwesRow(n.batches[i], c);
      assert OwesRow(n'.batches[i], c);
    }
    if PartOwed(n, c, u) && !n.mem.Live(c) {
      var i :| 0 <= i < |n.batches| && OwesPart(n.batches[i], c, u);
      assert OwesPart(n'.batches[i], c, u);
    }
  }

  lemma QuietKeepsBooks(n: Node, n': Node, db: Db, log: Log)
    requires Books(n, db, log) && Quiet(n.mem, n'.mem) && n'.batches == n.batches
    ensures Books(n', db, log)
  {
    hide HasBubble, OwesRow, OwesPart;
    forall c ensures n'.mem.Live(c) <==> n.mem.Live(c) {}
    assert RowsOwed(n', db, log) by {
      forall c | OpenRow(db, c) && c !in Excused(log) ensures RowOwed(n', c) { OwedStays(n, n', c, 0); }
    }
    assert PartsOwed(n', db, log) by {
      forall c, u | OpenPart(db, c, u) && c !in Excused(log) ensures PartOwed(n', c, u) { OwedStays(n, n', c, u); }
    }
  }

  /** Ops whose mere sending owes nothing and ends nothing. */
  lemma SendKeepsBooks(n: Node, op: Op, db: Db, log: Log)
    requires Books(n, db, log) && op.call in log.used
    requires !op.InsertCall? && !op.Finalize?
    ensures Books(Send(n, op), db, log)
  {
    hide HasBubble, OwesRow, OwesPart, FinalizesOnce, RowsOwed, PartsOwed;
    SendKeepsOwed(n, op, db, log);
    SendKeepsFinalizers(n, op);
  }

  lemma SendKeepsOwed(n: Node, op: Op, db: Db, log: Log)
    requires RowsOwed(n, db, log) && PartsOwed(n, db, log)
    ensures RowsOwed(Send(n, op), db, log) && PartsOwed(Send(n, op), db, log)
  {
    hide OwesRow, OwesPart;
    var n' := Send(n, op);
    assert n'.batches[..|n.batches|] == n.batches;
    forall c | OpenRow(db, c) && c !in Excused(log) ensures RowOwed(n', c) { OwedStays(n, n', c, 0); }
    forall c, u | OpenPart(db, c, u) && c !in Excused(log) ensures PartOwed(n', c, u) { OwedStays(n, n', c, u); }
  }

  lemma SendKeepsFinalizers(n: Node, op: Op)
    requires FinalizesOnce(n) && !op.Finalize?
    ensures FinalizesOnce(Send(n, op))
  {
    var n' := Send(n, op);
    forall c | c in n.mem.calls && n.mem.calls[c].terminal
      ensures exists i | 0 <= i < |n'.batches| :: FinalizerOf(n'.batches[i], c) && !n'.batches[i].phase.Closed?
    {
      var i :| 0 <= i < |n.batches| && FinalizerOf(n.batches[i], c) && !n.batches[i].phase.Closed?;
      assert n'.batches[i] == n.batches[i];
    }
  }

  // ----- ending a call ---------------------------------------------------------------------

  lemma EndCallOwes(n: Node, c: CallId, verdict: Verdict, now: int, db: Db, log: Log)
    requires RowsOwed(n, db, log) && PartsOwed(n, db, log) && n.mem.Live(c)
    ensures RowsOwed(EndCall(n, c, verdict, now), db, log)
    ensures PartsOwed(EndCall(n, c, verdict, now), db, log)
  {
    hide OwesRow, OwesPart;
    var n' := EndCall(n, c, verdict, now);
    var last := n'.batches[|n.batches|];
    assert n'.batches[..|n.batches|] == n.batches;
    assert OwesRow(last, c) by { FinalizerOwes(last, c, 0); }
    forall d, u | OpenPart(db, d, u) && d !in Excused(log) ensures PartOwed(n', d, u) {
      if d == c { FinalizerOwes(last, c, u); } else { OwedStays(n, n', d, u); }
    }
    forall d | OpenRow(db, d) && d !in Excused(log) ensures RowOwed(n', d) {
      if d != c { OwedStays(n, n', d, 0); }
    }
  }

  lemma FinalizerOwes(b: Batch, c: CallId, u: UserId)
    requires FinalizerOf(b, c) && b.phase.InFlight?
    ensures OwesRow(b, c) && OwesPart(b, c, u)
  {
  }

  lemma EndCallFinalizes(n: Node, c: CallId, verdict: Verdict, now: int)
    requires FinalizesOnce(n) && n.mem.Live(c)
    ensures FinalizesOnce(EndCall(n, c, verdict, now))
  {
    var n' := EndCall(n, c, verdict, now);
    forall i | 0 <= i < |n.batches| ensures n'.batches[i] == n.batches[i] {}
    assert FinalizerOf(n'.batches[|n.batches|], c);
    forall d | d in n'.mem.calls && n'.mem.calls[d].terminal
      ensures exists i | 0 <= i < |n'.batches| :: FinalizerOf(n'.batches[i], d) && !n'.batches[i].phase.Closed?
    {
      if d != c {
        var i :| 0 <= i < |n.batches| && FinalizerOf(n.batches[i], d) && !n.batches[i].phase.Closed?;
        assert FinalizerOf(n'.batches[i], d);
      }
    }
  }

  lemma EndCallInserts(n: Node, c: CallId, verdict: Verdict, now: int, db: Db)
    requires InsertsOnce(n, db) && n.mem.Live(c)
    ensures InsertsOnce(EndCall(n, c, verdict, now), db)
  {
    var n' := EndCall(n, c, verdict, now);
    forall i | 0 <= i < |n.batches| ensures n'.batches[i] == n.batches[i] {}
  }

  lemma EndCallKeepsBooks(n: Node, c: CallId, verdict: Verdict, now: int, db: Db, log: Log)
    requires Books(n, db, log)
    ensures Books(EndCall(n, c, verdict, now), db, log)
  {
    hide RowsOwed, PartsOwed, FinalizesOnce, InsertsOnce, HasBubble;
    if n.mem.Live(c) {
      EndCallOwes(n, c, verdict, now, db, log);
      EndCallFinalizes(n, c, verdict, now);
      EndCallInserts(n, c, verdict, now, db);
    }
  }

  // ----- creating one -----------------------------------------------------------------------

  lemma CreateKeepsBooks(n: Node, c: CallId, u: UserId, conv: Conversation, kind: Kind, rung: set<UserId>, now: int,
                         db: Db, log: Log)
    requires Books(n, db, log) && c !in log.used
    ensures var n' := Send(n.(mem := Create(n.mem, c, conv, kind, u, rung, now)), InsertCall(c, conv, kind, u, rung));
            Books(n', db, log.(used := log.used + {c}))
  {
    hide OwesRow, OwesPart;
    var log' := log.(used := log.used + {c});
    var n' := Send(n.(mem := Create(n.mem, c, conv, kind, u, rung, now)), InsertCall(c, conv, kind, u, rung));
    assert n'.batches[..|n.batches|] == n.batches;
    assert RowsOwed(n', db, log') by {
      forall d | OpenRow(db, d) && d !in Excused(log') ensures RowOwed(n', d) { OwedStays(n, n', d, 0); }
    }
    assert PartsOwed(n', db, log') by {
      forall d, w | OpenPart(db, d, w) && d !in Excused(log') ensures PartOwed(n', d, w) { OwedStays(n, n', d, w); }
    }
    CreateFinalizes(n, c, u, conv, kind, rung, now);
    CreateInserts(n, c, u, conv, kind, rung, now, db, log);
  }

  lemma CreateFinalizes(n: Node, c: CallId, u: UserId, conv: Conversation, kind: Kind, rung: set<UserId>, now: int)
    requires FinalizesOnce(n) && c !in n.mem.calls && forall b | b in n.batches :: b.op.call != c
    ensures FinalizesOnce(Send(n.(mem := Create(n.mem, c, conv, kind, u, rung, now)), InsertCall(c, conv, kind, u, rung)))
  {
    var n' := Send(n.(mem := Create(n.mem, c, conv, kind, u, rung, now)), InsertCall(c, conv, kind, u, rung));
    forall i | 0 <= i < |n.batches| ensures n'.batches[i] == n.batches[i] && n.batches[i].op.call != c {
      assert n.batches[i] in n.batches;
    }
    forall d | d in n'.mem.calls && n'.mem.calls[d].terminal
      ensures exists i | 0 <= i < |n'.batches| :: FinalizerOf(n'.batches[i], d) && !n'.batches[i].phase.Closed?
    {
      var i :| 0 <= i < |n.batches| && FinalizerOf(n.batches[i], d) && !n.batches[i].phase.Closed?;
      assert FinalizerOf(n'.batches[i], d);
    }
  }

  lemma CreateInserts(n: Node, c: CallId, u: UserId, conv: Conversation, kind: Kind, rung: set<UserId>, now: int,
                      db: Db, log: Log)
    requires InsertsOnce(n, db) && IdsUsed(n, db, log) && c !in log.used
    ensures InsertsOnce(Send(n.(mem := Create(n.mem, c, conv, kind, u, rung, now)), InsertCall(c, conv, kind, u, rung)), db)
  {
    var n' := Send(n.(mem := Create(n.mem, c, conv, kind, u, rung, now)), InsertCall(c, conv, kind, u, rung));
    forall i | 0 <= i < |n.batches| ensures n'.batches[i] == n.batches[i] && n.batches[i].op.call != c {
      assert n.batches[i] in n.batches;
    }
  }

  // ----- a batch commits ----------------------------------------------------------------------

  /** Only an insert or a join can open a participant row, and only an insert a call row. */
  lemma ExecuteOpens(db: Db, op: Op, now: int, c: CallId, u: UserId)
    ensures OpenPart(Execute(db, op, now), c, u) ==>
      || (OpenPart(db, c, u) && !(op.call == c && (op.Finalize? || op.StampOrphan?))
                             && !(op.Restamp? && op.call == c && op.user == u))
      || (op.InsertCall? && op.call == c)
      || (op.UpsertJoin? && op.call == c && op.user == u)
    ensures OpenRow(Execute(db, op, now), c) ==>
      || (OpenRow(db, c) && !(op.call == c && (op.Finalize? || op.StampOrphan?)))
      || (op.InsertCall? && op.call == c)
  {
  }

  /** A committed batch no longer in flight still leaves every other debt standing. */
  lemma OwedAfterAnswer(n: Node, i: nat, phase: Phase, c: CallId, u: UserId)
    requires i < |n.batches| && n.batches[i].phase.InFlight?
    ensures RowOwed(n, c) && !OwesRow(n.batches[i], c) ==> RowOwed(Answered(n, i, phase), c)
    ensures PartOwed(n, c, u) && !OwesPart(n.batches[i], c, u) ==> PartOwed(Answered(n, i, phase), c, u)
  {
    hide OwesRow, OwesPart;
    var n' := Answered(n, i, phase);
    if RowOwed(n, c) && !OwesRow(n.batches[i], c) && !n.mem.Live(c) {
      var j :| 0 <= j < |n.batches| && OwesRow(n.batches[j], c);
      assert OwesRow(n'.batches[j], c);
    }
    if PartOwed(n, c, u) && !OwesPart(n.batches[i], c, u) && !n.mem.Live(c) {
      var j :| 0 <= j < |n.batches| && OwesPart(n.batches[j], c, u);
      assert OwesPart(n'.batches[j], c, u);
    }
  }

  lemma CommitRowsOwed(n: Node, i: nat, now: int, db: Db, log: Log)
    requires RowsOwed(n, db, log) && i < |n.batches| && n.batches[i].phase.InFlight?
    ensures RowsOwed(Answered(n, i, Committed), Execute(db, n.batches[i].op, now), log)
  {
    var op := n.batches[i].op;
    var n' := Answered(n, i, Committed);
    forall c | OpenRow(Execute(db, op, now), c) && c !in Excused(log) ensures RowOwed(n', c) {
      ExecuteOpens(db, op, now, c, 0);
      OwedAfterAnswer(n, i, Committed, c, 0);
      if op.InsertCall? && op.call == c { assert OwesRow(n'.batches[i], c); }
    }
  }

  lemma CommitPartsOwed(n: Node, i: nat, now: int, db: Db, log: Log)
    requires PartsOwed(n, db, log) && i < |n.batches| && n.batches[i].phase.InFlight?
    ensures PartsOwed(Answered(n, i, Committed), Execute(db, n.batches[i].op, now), log)
  {
    var op := n.batches[i].op;
    var n' := Answered(n, i, Committed);
    forall c, u | OpenPart(Execute(db, op, now), c, u) && c !in Excused(log) ensures PartOwed(n', c, u) {
      ExecuteOpens(db, op, now, c, u);
      OwedAfterAnswer(n, i, Committed, c, u);
      if (op.InsertCall? && op.call == c) || (op.UpsertJoin? && op.call == c && op.user == u) {
        assert OwesPart(n'.batches[i], c, u);
      }
    }
  }

  lemma ExecuteKeys(db: Db, op: Op, now: int)
    ensures Execute(db, op, now).rows.Keys == db.rows.Keys + (if op.InsertCall? then {op.call} else {})
    ensures Execute(db, op, now).bubbles == db.bubbles + (if op.Finalize? then [Bubble(op.call, op.verdict, op.kind, op.durationSec)] else [])
    ensures forall k | k in Execute(db, op, now).parts ::
              k in db.parts || (op.InsertCall? && k.0 == op.call) || (op.UpsertJoin? && k.0 == op.call)
  {
  }

  lemma CommitBubbles(n: Node, i: nat, db: Db, db': Db)
    requires BubblesOnce(n, db) && FinalizesOnce(n) && i < |n.batches| && n.batches[i].phase.InFlight?
    requires var op := n.batches[i].op;
             db'.bubbles == db.bubbles + if op.Finalize? then [Bubble(op.call, op.verdict, op.kind, op.durationSec)] else []
    ensures BubblesOnce(Answered(n, i, Committed), db')
  {
    var op := n.batches[i].op;
    forall c | HasBubble(db', c) ensures HasBubble(db, c) || (op.Finalize? && c == op.call) {
      var x :| x in db'.bubbles && x.call == c;
      if x in db.bubbles { assert HasBubble(db, c); }
    }
    if op.Finalize? {
      assert !HasBubble(db, op.call);
      forall a | 0 <= a < |db.bubbles| ensures db.bubbles[a].call != op.call { assert db.bubbles[a] in db.bubbles; }
    }
  }

  lemma CommitKeepsBooks(n: Node, i: nat, now: int, db: Db, log: Log)
    requires Books(n, db, log) && i < |n.batches| && n.batches[i].phase.InFlight?
    requires ForeignKeyHolds(db, n.batches[i].op)
    ensures Books(Answered(n, i, Committed), Execute(db, n.batches[i].op, now), log)
  {
    hide RowsOwed, PartsOwed, BubblesOnce, Execute, FinalizesOnce, InsertsOnce;
    ExecuteKeys(db, n.batches[i].op, now);
    CommitRowsOwed(n, i, now, db, log);
    CommitPartsOwed(n, i, now, db, log);
    CommitBubbles(n, i, db, Execute(db, n.batches[i].op, now));
    AnswerFinalizes(n, i, Committed);
    AnswerInserts(n, i, Committed, db, Execute(db, n.batches[i].op, now));
  }

  lemma AnswerFinalizes(n: Node, i: nat, phase: Phase)
    requires FinalizesOnce(n) && i < |n.batches| && !phase.Closed?
    ensures FinalizesOnce(Answered(n, i, phase))
  {
    var n' := Answered(n, i, phase);
    forall d | d in n'.mem.calls && n'.mem.calls[d].terminal
      ensures exists j | 0 <= j < |n'.batches| :: FinalizerOf(n'.batches[j], d) && !n'.batches[j].phase.Closed?
    {
      var j :| 0 <= j < |n.batches| && FinalizerOf(n.batches[j], d) && !n.batches[j].phase.Closed?;
      assert FinalizerOf(n'.batches[j], d);
    }
  }

  lemma AnswerInserts(n: Node, i: nat, phase: Phase, db: Db, db': Db)
    requires InsertsOnce(n, db) && i < |n.batches| && n.batches[i].phase.InFlight?
    requires phase.Committed? || (phase.Failed? && db' == db)
    requires phase.Committed? ==>
      db'.rows.Keys == db.rows.Keys + if n.batches[i].op.InsertCall? then {n.batches[i].op.call} else {}
    ensures InsertsOnce(Answered(n, i, phase), db')
  {
    var n' := Answered(n, i, phase);
    forall j | 0 <= j < |n'.batches| && n'.batches[j].op.InsertCall? && (n'.batches[j].phase.InFlight? || n'.batches[j].phase.Failed?)
      ensures n'.batches[j].op.call !in db'.rows
    {
      assert n'.batches[j].op == n.batches[j].op;
    }
  }

  // ----- a batch fails ---------------------------------------------------------------------------

  lemma FailOwed(n: Node, i: nat, db: Db, log: Log, s: Server)
    requires RowsOwed(n, db, log) && PartsOwed(n, db, log) && PartsHaveCalls(db)
    requires i < |n.batches| && n.batches[i].phase.InFlight?
    requires s == Server(n, db, log)
    ensures RowsOwed(Answered(n, i, Failed), db, Blame(s, n.batches[i].op))
    ensures PartsOwed(Answered(n, i, Failed), db, Blame(s, n.batches[i].op))
  {
    var op := n.batches[i].op;
    var n' := Answered(n, i, Failed);
    var log' := Blame(s, op);
    forall c | OpenRow(db, c) && c !in Excused(log') ensures RowOwed(n', c) {
      OwedAfterAnswer(n, i, Failed, c, 0);
    }
    forall c, u | OpenPart(db, c, u) && c !in Excused(log') ensures PartOwed(n', c, u) {
      OwedAfterAnswer(n, i, Failed, c, u);
    }
  }

  lemma FailKeepsBooks(s: Server, i: nat)
    requires Books(s.node, s.db, s.log) && i < |s.node.batches| && s.node.batches[i].phase.InFlight?
    ensures Books(Answered(s.node, i, Failed), s.db, Blame(s, s.node.batches[i].op))
  {
    hide RowsOwed, PartsOwed, FinalizesOnce, InsertsOnce, HasBubble;
    FailOwed(s.node, i, s.db, s.log, s);
    AnswerFinalizes(s.node, i, Failed);
    AnswerInserts(s.node, i, Failed, s.db, s.db);
  }

  // ----- a handler goes on -------------------------------------------------------------------------

  predicate IsAnswered(n: Node, i: nat) {
    i < |n.batches| && (n.batches[i].phase.Committed? || n.batches[i].phase.Failed?)
  }

  /** Closing an answered batch drops at most the debt that batch itself stood for. */
  lemma OwedAfterClose(n: Node, i: nat, n': Node, c: CallId, u: UserId)
    requires IsAnswered(n, i) && |n'.batches| >= |n.batches|
    requires forall j | 0 <= j < |n.batches| && j != i :: n'.batches[j] == n.batches[j]
    requires n.mem.Live(c) ==> n'.mem.Live(c)
    ensures RowOwed(n, c) && !OwesRow(n.batches[i], c) ==> RowOwed(n', c)
    ensures PartOwed(n, c, u) && !OwesPart(n.batches[i], c, u) ==> PartOwed(n', c, u)
  {
    hide OwesRow, OwesPart;
    if RowOwed(n, c) && !OwesRow(n.batches[i], c) && !n.mem.Live(c) {
      var j :| 0 <= j < |n.batches| && OwesRow(n.batches[j], c);
      assert OwesRow(n'.batches[j], c);
    }
    if PartOwed(n, c, u) && !OwesPart(n.batches[i], c, u) && !n.mem.Live(c) {
      var j :| 0 <= j < |n.batches| && OwesPart(n.batches[j], c, u);
      assert OwesPart(n'.batches[j], c, u);
    }
  }

  lemma CloseFinalizes(n: Node, i: nat, n': Node)
    requires FinalizesOnce(n) && IsAnswered(n, i)
    requires n'.batches == Close(n, i).batches
    requires forall c | n'.mem.Live(c) :: n.mem.Live(c)
    requires forall c | c in n'.mem.calls && n'.mem.calls[c].terminal :: c in n.mem.calls && n.mem.calls[c].terminal
    requires n.batches[i].op.Finalize? ==> n.batches[i].op.call !in n'.mem.calls
    ensures FinalizesOnce(n')
  {
    forall d | d in n'.mem.calls && n'.mem.calls[d].terminal
      ensures exists j | 0 <= j < |n'.batches| :: FinalizerOf(n'.batches[j], d) && !n'.batches[j].phase.Closed?
    {
      var j :| 0 <= j < |n.batches| && FinalizerOf(n.batches[j], d) && !n.batches[j].phase.Closed?;
      assert FinalizerOf(n'.batches[j], d);
    }
  }

  lemma CloseInserts(n: Node, i: nat, n': Node, db: Db)
    requires InsertsOnce(n, db) && IsAnswered(n, i)
    requires n'.batches == Close(n, i).batches
    requires forall c | c in n'.mem.calls && !(n.batches[i].op.InsertCall? && c == n.batches[i].op.call) ::
               c in n.mem.calls && (n'.mem.calls[c].ringTimer == n.mem.calls[c].ringTimer || n'.mem.calls[c].ringTimer.None?)
    ensures InsertsOnce(n', db)
  {
    forall j | 0 <= j < |n.batches| ensures n'.batches[j].op == n.batches[j].op {}
  }

  /** Closing a batch that stands for no debt, with memory quiet about the books. */
  lemma CloseQuietly(n: Node, i: nat, n': Node, db: Db, log: Log)
    requires Books(n, db, log) && IsAnswered(n, i) && Quiet(n.mem, n'.mem)
    requires n'.batches == Close(n, i).batches
    requires !n.batches[i].op.Finalize?
    requires forall c | !n'.mem.Live(c) :: !OwesRow(n.batches[i], c)
    requires forall c, u | !n'.mem.Live(c) :: !OwesPart(n.batches[i], c, u)
    ensures Books(n', db, log)
  {
    hide OwesRow, OwesPart, FinalizesOnce, InsertsOnce, HasBubble;
    CloseFinalizes(n, i, n');
    CloseInserts(n, i, n', db);
    forall c | OpenRow(db, c) && c !in Excused(log) ensures RowOwed(n', c) { OwedAfterClose(n, i, n', c, 0); }
    forall c, u | OpenPart(db, c, u) && c !in Excused(log) ensures PartOwed(n', c, u) { OwedAfterClose(n, i, n', c, u); }
  }

  /** The finalizer's handler, or the invite whose insert failed, frees the slot. */
  lemma RemoveKeepsBooks(n: Node, i: nat, db: Db, log: Log)
    requires Books(n, db, log) && IsAnswered(n, i)
    requires n.batches[i].op.Finalize? || (n.batches[i].op.InsertCall? && n.batches[i].phase.Failed?)
    ensures var n1 := Close(n, i); Books(n1.(mem := Remove(n1.mem, n.batches[i].op.call)), db, log)
  {
    hide HasBubble;
    var c := n.batches[i].op.call;
    var n' := Close(n, i).(mem := Remove(n.mem, c));
    RemoveOwed(n, i, n', db, log);
    assert InsertsOnce(n', db) by { CloseInserts(n, i, n', db); }
    assert FinalizesOnce(n') by { CloseFinalizes(n, i, n'); }
  }

  lemma RemoveOwed(n: Node, i: nat, n': Node, db: Db, log: Log)
    requires InsertsOnce(n, db) && FinalizesOnce(n) && PartsHaveCalls(db) && RowsOwed(n, db, log) && PartsOwed(n, db, log)
    requires IsAnswered(n, i)
    requires n.batches[i].op.Finalize? || (n.batches[i].op.InsertCall? && n.batches[i].phase.Failed?)
    requires n' == Close(n, i).(mem := Remove(n.mem, n.batches[i].op.call))
    ensures RowsOwed(n', db, log) && PartsOwed(n', db, log)
  {
    var c := n.batches[i].op.call;
    forall d | OpenRow(db, d) && d !in Excused(log) ensures RowOwed(n', d) { OwedAfterClose(n, i, n', d, 0); }
    forall d, u | OpenPart(db, d, u) && d !in Excused(log) ensures PartOwed(n', d, u) { OwedAfterClose(n, i, n', d, u); }
  }

  /** A dead call's insert or join landed after all: its handler sends the stamp that pays for it. */
  lemma RestampKeepsBooks(n: Node, i: nat, db: Db, log: Log)
    requires Books(n, db, log) && IsAnswered(n, i) && n.batches[i].phase.Committed?
    requires n.batches[i].op.InsertCall? || n.batches[i].op.UpsertJoin?
    requires !n.mem.Live(n.batches[i].op.call)
    ensures var op := n.batches[i].op;
            Books(Send(Close(n, i), if op.InsertCall? then StampOrphan(op.call) else Restamp(op.call, op.user)), db, log)
  {
    hide HasBubble;
    var op := n.batches[i].op;
    var n1 := Close(n, i);
    var n' := Send(n1, if op.InsertCall? then StampOrphan(op.call) else Restamp(op.call, op.user));
    RestampOwed(n, i, n', db, log);
    assert FinalizesOnce(n1) by { CloseFinalizes(n, i, n1); }
    assert InsertsOnce(n1, db) by { CloseInserts(n, i, n1, db); }
    assert FinalizesOnce(n') && InsertsOnce(n', db) by { SendOnce(n1, n', db); }
  }

  lemma SendOnce(n: Node, n': Node, db: Db)
    requires FinalizesOnce(n) && InsertsOnce(n, db) && n'.mem == n.mem && |n'.batches| == |n.batches| + 1
    requires forall i | 0 <= i < |n.batches| :: n'.batches[i] == n.batches[i]
    requires !n'.batches[|n.batches|].op.Finalize? && !n'.batches[|n.batches|].op.InsertCall?
    ensures FinalizesOnce(n') && InsertsOnce(n', db)
  {
    forall d | d in n'.mem.calls && n'.mem.calls[d].terminal
      ensures exists j | 0 <= j < |n'.batches| :: FinalizerOf(n'.batches[j], d) && !n'.batches[j].phase.Closed?
    {
      var j :| 0 <= j < |n.batches| && FinalizerOf(n.batches[j], d) && !n.batches[j].phase.Closed?;
      assert FinalizerOf(n'.batches[j], d);
    }
  }

  lemma RestampOwed(n: Node, i: nat, n': Node, db: Db, log: Log)
    requires RowsOwed(n, db, log) && PartsOwed(n, db, log)
    requires IsAnswered(n, i) && n.batches[i].phase.Committed?
    requires n.batches[i].op.InsertCall? || n.batches[i].op.UpsertJoin?
    requires var op := n.batches[i].op;
             n' == Send(Close(n, i), if op.InsertCall? then StampOrphan(op.call) else Restamp(op.call, op.user))
    ensures RowsOwed(n', db, log) && PartsOwed(n', db, log)
  {
    var last := n'.batches[|n.batches|];
    forall c | OpenRow(db, c) && c !in Excused(log) ensures RowOwed(n', c) {
      OwedAfterClose(n, i, n', c, 0);
      assert OwesRow(n.batches[i], c) ==> OwesRow(last, c);
    }
    forall c, u | OpenPart(db, c, u) && c !in Excused(log) ensures PartOwed(n', c, u) {
      OwedAfterClose(n, i, n', c, u);
      assert OwesPart(n.batches[i], c, u) ==> OwesPart(last, c, u);
    }
  }

  /** The insert landed while the call is still live: the ring timer is armed. */
  lemma ArmKeepsBooks(n: Node, i: nat, db: Db, log: Log)
    requires Books(n, db, log) && IsAnswered(n, i) && n.batches[i].op.InsertCall? && n.batches[i].phase.Committed?
    requires n.mem.Live(n.batches[i].op.call)
    ensures Books(GoOn(n, i), db, log)
  {
    var n' := GoOn(n, i);
    assert FinalizesOnce(n') && InsertsOnce(n', db) by {
      CloseFinalizes(n, i, n');
      CloseInserts(n, i, n', db);
    }
    assert n'.mem.calls.Keys == n.mem.calls.Keys;
    hide HasBubble, FinalizesOnce, InsertsOnce, RowsOwed, PartsOwed, GoOn;
    ArmKeepsOwed(n, i, db, log);
  }

  lemma ArmKeepsOwed(n: Node, i: nat, db: Db, log: Log)
    requires RowsOwed(n, db, log) && PartsOwed(n, db, log)
    requires IsAnswered(n, i) && n.batches[i].op.InsertCall? && n.batches[i].phase.Committed?
    requires n.mem.Live(n.batches[i].op.call)
    ensures RowsOwed(GoOn(n, i), db, log) && PartsOwed(GoOn(n, i), db, log)
  {
    hide OwesRow, OwesPart;
    var c := n.batches[i].op.call;
    var n' := GoOn(n, i);
    forall d | OpenRow(db, d) && d !in Excused(log) ensures RowOwed(n', d) {
      if d != c { OtherDebt(n.batches[i], d, 0); OwedAfterClose(n, i, n', d, 0); }
    }
    forall d, u | OpenPart(db, d, u) && d !in Excused(log) ensures PartOwed(n', d, u) {
      if d != c { OtherDebt(n.batches[i], d, u); OwedAfterClose(n, i, n', d, u); }
    }
  }

  lemma OtherDebt(b: Batch, c: CallId, u: UserId)
    requires b.op.call != c
    ensures !OwesRow(b, c) && !OwesPart(b, c, u)
  {
  }

  // ----- the sweeper ------------------------------------------------------------------------------------

  lemma SweepKeepsBooks(n: Node, c: CallId, now: int, db: Db, log: Log)
    requires Books(n, db, log) && Stuck(n.mem, c, now)
    ensures Books(SweepOne(n, c, now), db, log.(swept := log.swept + {c}))
  {
    hide HasBubble, OwesRow, OwesPart, FinalizesOnce, InsertsOnce, RowsOwed, PartsOwed, SweepOne, Stuck;
    SweepOnce(n, c, now, db);
    SweepKeepsOwed(n, c, now, db, log);
    SweepSends(n, c, now);
  }

  lemma SweepSends(n: Node, c: CallId, now: int)
    requires Stuck(n.mem, c, now)
    ensures SweepOne(n, c, now).batches == n.batches + [Batch(StampSwept(c), InFlight)]
    ensures c in n.mem.calls
    ensures SweepOne(n, c, now).mem.calls == n.mem.calls - {c}
  {
    assert Remove(n.mem, c).calls == n.mem.calls - {c};
  }

  lemma SweepKeepsOwed(n: Node, c: CallId, now: int, db: Db, log: Log)
    requires RowsOwed(n, db, log) && PartsOwed(n, db, log) && Stuck(n.mem, c, now)
    ensures var log' := log.(swept := log.swept + {c});
            RowsOwed(SweepOne(n, c, now), db, log') && PartsOwed(SweepOne(n, c, now), db, log')
  {
    hide SweepOne, Stuck, RowOwed, PartOwed, OpenRow, OpenPart;
    var (n', log') := (SweepOne(n, c, now), log.(swept := log.swept + {c}));
    SweepSends(n, c, now);
    forall d | OpenRow(db, d) && d !in Excused(log') ensures RowOwed(n', d) { OwedStays(n, n', d, 0); }
    forall d, u | OpenPart(db, d, u) && d !in Excused(log') ensures PartOwed(n', d, u) { OwedStays(n, n', d, u); }
  }

  lemma SweepOnce(n: Node, c: CallId, now: int, db: Db)
    requires FinalizesOnce(n) && InsertsOnce(n, db) && Stuck(n.mem, c, now)
    ensures FinalizesOnce(SweepOne(n, c, now)) && InsertsOnce(SweepOne(n, c, now), db)
  {
    var n' := SweepOne(n, c, now);
    forall i | 0 <= i < |n.batches| ensures n'.batches[i] == n.batches[i] {}
    forall d | d in n'.mem.calls && n'.mem.calls[d].terminal
      ensures exists j | 0 <= j < |n'.batches| :: FinalizerOf(n'.batches[j], d) && !n'.batches[j].phase.Closed?
    {
      var j :| 0 <= j < |n.batches| && FinalizerOf(n.batches[j], d) && !n.batches[j].phase.Closed?;
      assert FinalizerOf(n'.batches[j], d);
    }
  }

  // ----- every step ----------------------------------------------------------------------------------------

  lemma DepartKeepsBooks(n: Node, c: CallId, u: UserId, now: int, db: Db, log: Log)
    requires Books(n, db, log) && c in n.mem.calls
    ensures Books(Depart(n, c, u, now), db, log)
  {
    hide Books, EndCall, Send;
    var n1 := n.(mem := MarkLeft(n.mem, c, u));
    QuietKeepsBooks(n, n1, db, log);
    EndCallKeepsBooks(n1, c, Closing(n1.mem.calls[c]), now, db, log);
    KnownCall(n1, c, db, log);
    SendKeepsBooks(n1, StampLeft(c, {u}), db, log);
  }

  lemma KnownCall(n: Node, c: CallId, db: Db, log: Log)
    requires Books(n, db, log) && c in n.mem.calls
    ensures c in log.used
  {
    hide InsertsOnce, FinalizesOnce, BubblesOnce, RowsOwed, PartsOwed, PartsHaveCalls;
  }

  lemma LoseOwnCallKeepsBooks(n: Node, u: UserId, now: int, db: Db, log: Log)
    requires Books(n, db, log)
    ensures Books(LoseOwnCall(n, u, now), db, log)
  {
    hide Books, EndCall;
    if u in n.mem.byUser && n.mem.Live(n.mem.byUser[u]) {
      var c := n.mem.byUser[u];
      EndCallKeepsBooks(n, c, Missed, now, db, log);
      QuietKeepsBooks(n, StartGrace(n, c, u), db, log);
    }
  }

  lemma LoseRingKeepsBooks(n: Node, c: CallId, u: UserId, now: int, db: Db, log: Log)
    requires Books(n, db, log)
    ensures Books(LoseRing(n, c, u, now), db, log)
  {
    hide Books, EndCall;
    if c in n.mem.calls {
      var n1 := n.(mem := MarkRungGone(n.mem, c, u));
      QuietKeepsBooks(n, n1, db, log);
      EndCallKeepsBooks(n, c, Missed, now, db, log);
      EndCallKeepsBooks(n1, c, Missed, now, db, log);
    }
  }

  lemma {:induction false} LoseRingsKeepsBooks(n: Node, rings: seq<CallId>, u: UserId, now: int, db: Db, log: Log)
    requires Books(n, db, log)
    ensures Books(LoseRings(n, rings, u, now), db, log)
  {
    hide Books, LoseRing;
    if rings != [] {
      LoseRingsKeepsBooks(n, rings[..|rings|-1], u, now, db, log);
      LoseRingKeepsBooks(LoseRings(n, rings[..|rings|-1], u, now), rings[|rings|-1], u, now, db, log);
    }
  }

  lemma {:induction false} KickIsQuiet(k: KickState, c: CallId, users: seq<UserId>)
    ensures Quiet(k.mem, KickAll(k, c, users).mem)
  {
    if users != [] {
      var before := KickAll(k, c, users[..|users|-1]);
      hide KickOne, Quiet;
      KickIsQuiet(k, c, users[..|users|-1]);
      OneKickIsQuiet(before, c, users[|users|-1]);
      QuietTwice(k.mem, before.mem, KickAll(k, c, users).mem);
    } else {
      QuietTwice(k.mem, k.mem, k.mem);
    }
  }

  lemma OneKickIsQuiet(k: KickState, c: CallId, u: UserId)
    ensures Quiet(k.mem, KickOne(k, c, u).mem)
  {
    hide EndsWithoutUser, Call.PendingSet, Call.JoinedSet, MarkLeft, MarkRungGone, Quiet, Mem.IsJoined, Mem.IsPending;
    LeavingIsQuiet(k.mem, c, u);
    RungGoneIsQuiet(k.mem, c, u);
    QuietTwice(k.mem, k.mem, k.mem);
  }

  lemma LeavingIsQuiet(m: Mem, c: CallId, u: UserId)
    ensures Quiet(m, MarkLeft(m, c, u)) && MarkLeft(m, c, u).calls.Keys == m.calls.Keys
  {
  }

  lemma RungGoneIsQuiet(m: Mem, c: CallId, u: UserId)
    ensures Quiet(m, MarkRungGone(m, c, u)) && MarkRungGone(m, c, u).calls.Keys == m.calls.Keys
  {
  }

  lemma QuietTwice(m: Mem, m1: Mem, m2: Mem)
    ensures Quiet(m, m)
    ensures Quiet(m, m1) && Quiet(m1, m2) ==> Quiet(m, m2)
  {
  }

  lemma KickKeepsBooks(n: Node, conv: Conversation, users: seq<UserId>, now: int, db: Db, log: Log)
    requires Books(n, db, log)
    ensures Books(Kick(n, conv, users, now), db, log)
  {
    hide Books, EndCall, Send, KickAll, Quiet;
    if conv in n.mem.byConversation && n.mem.Live(n.mem.byConversation[conv]) {
      var c := n.mem.byConversation[conv];
      var k := KickAll(KickState(n.mem, {}, false), c, users);
      var n1 := n.(mem := k.mem);
      KickIsQuiet(KickState(n.mem, {}, false), c, users);
      QuietKeepsBooks(n, n1, db, log);
      if k.ends && c in k.mem.calls { EndCallKeepsBooks(n1, c, Closing(k.mem.calls[c]), now, db, log); }
      KnownCall(n, c, db, log);
      SendKeepsBooks(n1, StampLeft(c, k.left), db, log);
    }
  }

  lemma JoinKeepsBooks(n: Node, c: CallId, u: UserId, member: bool, now: int, db: Db, log: Log)
    requires Books(n, db, log)
    ensures Books(Join(n, c, u, member, now), db, log)
  {
    hide Books, Send;
    match JoinAnswerOf(n, c, u, member)
    case Joined(already, became) =>
      var n1 := n.(mem := MarkJoined(n.mem, c, u, now));
      QuietKeepsBooks(n, n1, db, log);
      KnownCall(n, c, db, log);
      SendKeepsBooks(n1, UpsertJoin(c, u, already, became), db, log);
    case _ =>
  }

  lemma RejectKeepsBooks(n: Node, c: CallId, u: UserId, now: int, db: Db, log: Log)
    requires Books(n, db, log)
    ensures Books(Reject(n, c, u, now), db, log)
  {
    hide Books, EndCall;
    var n1 := n.(mem := MarkRejected(n.mem, c, u));
    QuietKeepsBooks(n, n1, db, log);
    EndCallKeepsBooks(n1, c, Rejected, now, db, log);
    EndCallKeepsBooks(n1, c, Missed, now, db, log);
  }

  lemma RingExpiresKeepsBooks(n: Node, t: Timer, now: int, db: Db, log: Log)
    requires Books(n, db, log) && t.RingTimer?
    ensures Books(RingExpires(n, t, now), db, log)
  {
    hide Books, EndCall;
    var fired := Fire(n, t);
    var n1 := fired.(mem := ClearRingTimer(fired.mem, t.call));
    QuietKeepsBooks(n, n1, db, log);
    EndCallKeepsBooks(n1, t.call, Missed, now, db, log);
  }

  lemma GraceExpiresKeepsBooks(n: Node, t: Timer, now: int, db: Db, log: Log)
    requires Books(n, db, log) && t.GraceTimer?
    ensures Books(GraceExpires(n, t, now), db, log)
  {
    hide Books, Depart;
    var fired := Fire(n, t);
    var n1 := fired.(mem := ClearGraceTimer(fired.mem, t.call, t.user));
    QuietKeepsBooks(n, n1, db, log);
    if t.call in n1.mem.calls { DepartKeepsBooks(n1, t.call, t.user, now, db, log); }
  }

  lemma RollbackIsQuiet(m: Mem, c: CallId, u: UserId, left: bool, revert: bool)
    ensures var m1 := if left then MarkLeft(m, c, u) else m;
            Quiet(m, if revert then RevertOngoing(m1, c) else m1)
  {
  }

  lemma NoDebt(b: Batch)
    requires b.phase.Committed? || b.phase.Failed?
    requires b.phase.Committed? ==> !b.op.InsertCall? && !b.op.UpsertJoin?
    ensures forall c :: !OwesRow(b, c)
    ensures forall c, u :: !OwesPart(b, c, u)
  {
  }

  lemma JoinDebt(b: Batch)
    requires b.op.UpsertJoin?
    ensures forall c :: !OwesRow(b, c)
    ensures forall c, u | OwesPart(b, c, u) :: c == b.op.call
  {
  }

  lemma GoOnKeepsBooks(n: Node, i: nat, db: Db, log: Log)
    requires Books(n, db, log) && IsAnswered(n, i)
    ensures Books(GoOn(n, i), db, log)
  {
    hide Books, OwesRow, OwesPart, MarkLeft, RevertOngoing, Quiet;
    var b := n.batches[i];
    var n1 := Close(n, i);
    match b.op
    case InsertCall(c, _, _, _, _) =>
      if b.phase.Failed? { RemoveKeepsBooks(n, i, db, log); }
      else if n.mem.Live(c) { ArmKeepsBooks(n, i, db, log); }
      else { RestampKeepsBooks(n, i, db, log); }
    case UpsertJoin(c, u, already, became) =>
      if b.phase.Failed? {
        RollbackIsQuiet(n.mem, c, u, !already, became);
        NoDebt(b);
        CloseQuietly(n, i, GoOn(n, i), db, log);
      } else if n.mem.Live(c) {
        JoinDebt(b);
        SameIsQuiet(n.mem);
        CloseQuietly(n, i, GoOn(n, i), db, log);
      } else { RestampKeepsBooks(n, i, db, log); }
    case Finalize(_, _, _, _, _, _) => RemoveKeepsBooks(n, i, db, log);
    case _ =>
      NoDebt(b);
      SameIsQuiet(n.mem);
      CloseQuietly(n, i, n1, db, log);
  }

  lemma SameIsQuiet(m: Mem)
    ensures Quiet(m, m)
  {
  }

  lemma StepKeepsBooks(s: Server, step: Step)
    requires Books(s.node, s.db, s.log) && Enabled(s, step)
    ensures var s' := Next(s, step); Books(s'.node, s'.db, s'.log)
  {
    hide Books, Join, Reject, Kick, RingExpires, GraceExpires, Depart, LoseRings, LoseOwnCall, GoOn, SweepOne, EndCall,
      Answered, Execute, Blame, Rolled, Quiet, Send, Create;
    var n, db, log := s.node, s.db, s.log;
    match step
    case Connects(u, k) => ConnectIsQuiet(n, u, k); QuietKeepsBooks(n, Connect(n, u, k), db, log);
    case Disconnects(u, k, rings, now) =>
      LoseOwnCallKeepsBooks(n, u, now, db, log);
      LoseRingsKeepsBooks(LoseOwnCall(n, u, now), rings, u, now, db, log);
      var n1 := CallListener(n, u, rings, now);
      SameIsQuiet(n1.mem);
      QuietKeepsBooks(n1, Disconnect(n, u, k, rings, now), db, log);
    case Invites(c, u, conv, kind, member, members, blocked, now) =>
      if InviteAnswerOf(n, u, conv, member, members, blocked).Reserved? {
        CreateKeepsBooks(n, c, u, conv, kind, OnlineOthers(n, u, members.value), now, db, log);
      } else { MoreUsed(n, db, log, c); }
    case Joins(c, u, _, member, now) => JoinKeepsBooks(n, c, u, member, now, db, log);
    case Cancels(c, u, now) => EndCallKeepsBooks(n, c, Missed, now, db, log);
    case Rejects(c, u, now) => RejectKeepsBooks(n, c, u, now, db, log);
    case Leaves(c, u, now) => if c in n.mem.calls { DepartKeepsBooks(n, c, u, now, db, log); }
    case Kicks(conv, users, now) => KickKeepsBooks(n, conv, users, now, db, log);
    case RingTimesOut(t, now) => RingExpiresKeepsBooks(n, t, now, db, log);
    case GraceTimesOut(t, now) => GraceExpiresKeepsBooks(n, t, now, db, log);
    case BatchCommits(i, now) => CommitKeepsBooks(n, i, now, db, log);
    case BatchFails(i) => FailKeepsBooks(s, i);
    case HandlerGoesOn(i) =>
      GoOnKeepsBooks(n, i, db, log);
      RolledKeepsBooks(GoOn(n, i), db, log, n, i);
    case SweeperFires(c, now) => if Stuck(n.mem, c, now) { SweepKeepsBooks(n, c, now, db, log); } else { NotSwept(n, c, now); }
  }

  lemma RolledKeepsBooks(n: Node, db: Db, log: Log, before: Node, i: nat)
    requires Books(n, db, log) && i < |before.batches|
    ensures Books(n, db, Rolled(log, before, i))
  {
    hide RollbackStrands, RollbackUntimes, InsertsOnce, FinalizesOnce, BubblesOnce, RowOwed, PartOwed, PartsHaveCalls;
  }

  lemma NotSwept(n: Node, c: CallId, now: int)
    requires !Stuck(n.mem, c, now)
    ensures SweepOne(n, c, now) == n
  {
  }

  lemma ConnectIsQuiet(n: Node, u: UserId, k: SocketId)
    ensures Quiet(n.mem, Connect(n, u, k).mem) && Connect(n, u, k).batches == n.batches
  {
  }

  lemma MoreUsed(n: Node, db: Db, log: Log, c: CallId)
    requires Books(n, db, log)
    ensures Books(n, db, log.(used := log.used + {c}))
  {
    hide InsertsOnce, FinalizesOnce, BubblesOnce, RowOwed, PartOwed, PartsHaveCalls;
  }
}
