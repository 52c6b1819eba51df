/** What the invariant says, in the system's own terms, of every reachable state. */
module CallResults {
  import opened Common
  import opened CallModel
  import opened CallSegments
  import opened CallProtocol
  import opened CallMemory
  import opened CallShape
  import opened CallBooks
  import opened CallSteps
  import opened CallRings
  import opened CallDebts
  import opened CallTheorems

  /** The call has left memory and no handler of it is waiting or has yet to go on. */
  ghost predicate Quiescent(s: Server, c: CallId) {
    && c !in s.node.mem.calls
    && forall b | b in s.node.batches && b.op.call == c :: b.phase.Closed?
  }

  /** The k-th step of the run loses the row's last hope. */
  ghost predicate LosesAt(steps: seq<Step>, k: nat, d: Debt) {
    && k < |steps| && After(steps[..k]).Some?
    && Loses(After(steps[..k]).value, steps[k], d)
  }

  /** A row is open for good exactly when some step of the run lost it. */
  lemma {:induction false} LostExactly(steps: seq<Step>, d: Debt)
    requires After(steps).Some?
    ensures var s := After(steps).value; Lost(s.node, s.db, d) <==> exists k :: LosesAt(steps, k, d)
  {
    hide Lost, Loses, Next, Enabled;
    if steps == [] {
      assert !Lost(INITIAL.node, INITIAL.db, d) by { NothingIsLostYet(d); }
    } else {
      var (front, last) := (steps[..|steps|-1], |steps| - 1);
      LostExactly(front, d);
      RunKeepsInv(front);
      assert Books(After(front).value.node, After(front).value.db, After(front).value.log) by { InvBooks(After(front).value); }
      StepLosesExactly(After(front).value, steps[last], d);
      forall k: nat | k < last ensures LosesAt(steps, k, d) <==> LosesAt(front, k, d) { assert steps[..k] == front[..k]; }
      assert LosesAt(steps, last, d) <==> Loses(After(front).value, steps[last], d);
    }
  }

  lemma NothingIsLostYet(d: Debt)
    ensures !Lost(INITIAL.node, INITIAL.db, d)
  {
  }

  lemma InvBooks(s: Server)
    requires Inv(s)
    ensures Books(s.node, s.db, s.log)
  {
    hide Books, MemInv, Shapes;
  }

  /**
   Whatever terminal paths raced and whatever half-finished inserts they raced with: a
   row of a quiescent call, its own or a participant's, is still open exactly when some
   step of the run took its last hope of a stamp, be it a batch that failed or the sweeper.
   */
  lemma QuiescentRowIsOpenExactly(steps: seq<Step>, s: Server, d: Debt)
    requires After(steps) == Some(s) && Quiescent(s, d.call)
    ensures Open(s.db, d) <==> exists k :: LosesAt(steps, k, d)
  {
    hide Open, MayClose;
    LostExactly(steps, d);
    forall i | 0 <= i < |s.node.batches| ensures !MayClose(s.node.batches[i], d) {
      assert s.node.batches[i] in s.node.batches;
      if MayClose(s.node.batches[i], d) {
        CloserIsOfCall(s.node.batches[i], d);
        FailedClosesNothing(s.node.batches[i], d);
      }
    }
  }

  /**
   So with no sweep of the call and no stamp of it failing by itself, its row is absent or
   terminal and nobody who joined is still in it.
   */
  lemma QuiescentCallIsSettled(s: Server, c: CallId)
    requires Reachable(s) && Quiescent(s, c)
    requires c !in s.log.swept && c !in s.log.stampFailed
    ensures c in s.db.rows ==> s.db.rows[c].status.Terminal()
    ensures forall u | (c, u) in s.db.parts && s.db.parts[(c, u)].joinedAt.Some? :: s.db.parts[(c, u)].leftAt.Some?
  {
    hide MemInv, Shapes, RungAreOnline, InsertsOnce, FinalizesOnce, BubblesOnce, IdsUsed;
    ReachableInv(s);
    if c in s.db.rows && !s.db.rows[c].status.Terminal() {
      assert OpenRow(s.db, c) && RowOwed(s.node, c);
      NothingOwed(s.node, c);
    }
    forall u | (c, u) in s.db.parts && s.db.parts[(c, u)].joinedAt.Some? ensures s.db.parts[(c, u)].leftAt.Some? {
      if s.db.parts[(c, u)].leftAt.None? {
        assert OpenPart(s.db, c, u) && PartOwed(s.node, c, u);
        NothingOwed(s.node, c);
      }
    }
  }

  lemma NothingOwed(n: Node, c: CallId)
    requires c !in n.mem.calls && forall b | b in n.batches && b.op.call == c :: b.phase.Closed?
    ensures !RowOwed(n, c) && forall u :: !PartOwed(n, c, u)
  {
    forall i | 0 <= i < |n.batches| ensures n.batches[i].op.call == c ==> n.batches[i].phase.Closed? {
      assert n.batches[i] in n.batches;
    }
  }

  // ----- what the sweeper leaves open ------------------------------------------------------

  /** A participant row open at the sweep with nothing under way to close it is open at every later point. */
  lemma SweptRowStaysOpen(before: seq<Step>, c: CallId, now: int, more: seq<Step>, u: UserId)
    requires After(before).Some? && Stuck(After(before).value.node.mem, c, now)
    requires OpenPart(After(before).value.db, c, u) && !HasCloser(After(before).value.node, PartOf(c, u))
    requires After(before + [SweeperFires(c, now)] + more).Some?
    ensures OpenPart(After(before + [SweeperFires(c, now)] + more).value.db, c, u)
  {
    hide HasCloser, Stuck, OpenPart;
    var steps := before + [SweeperFires(c, now)] + more;
    assert steps[..|before|] == before;
    assert LosesAt(steps, |before|, PartOf(c, u));
    LostExactly(steps, PartOf(c, u));
  }

  /** No batch of the call fails in these steps; `s` is where they end. */
  ghost predicate NoneFails(more: seq<Step>, s: Server, c: CallId) {
    forall step | step in more && step.BatchFails? && step.i < |s.node.batches| :: s.node.batches[step.i].op.call != c
  }

  /**
   A swept call at rest none of whose batches failed since: a participant's row is open
   exactly when it was open at the sweep and nothing was under way to close it: no insert
   and no join of theirs waiting to go on, no leave of theirs in flight.
   */
  lemma SweepLeavesOpenExactly(before: seq<Step>, c: CallId, now: int, more: seq<Step>, s: Server, u: UserId)
    requires After(before).Some? && Stuck(After(before).value.node.mem, c, now)
    requires After(before + [SweeperFires(c, now)] + more) == Some(s) && Quiescent(s, c) && NoneFails(more, s, c)
    ensures OpenPart(s.db, c, u) <==> OpenPart(After(before).value.db, c, u) && !HasCloser(After(before).value.node, PartOf(c, u))
  {
    hide HasCloser, Stuck, OpenPart, After, Loses, Quiescent;
    var (steps, d) := (before + [SweeperFires(c, now)] + more, PartOf(c, u));
    assert steps[..|before|] == before && steps[|before|] == SweeperFires(c, now);
    QuiescentRowIsOpenExactly(steps, s, d);
    assert LosesAt(steps, |before|, d) <==> OpenPart(After(before).value.db, c, u) && !HasCloser(After(before).value.node, d) by {
      LosesBySweep(After(before).value, c, now, d);
    }
    forall k: nat | LosesAt(steps, k, d) ensures k == |before| {
      OnlyTheSweepLoses(before, c, now, more, s, d, k);
    }
  }

  lemma LosesBySweep(s: Server, c: CallId, now: int, d: Debt)
    requires Stuck(s.node.mem, c, now) && d.PartOf? && d.call == c
    ensures Loses(s, SweeperFires(c, now), d) <==> OpenPart(s.db, c, d.user) && !HasCloser(s.node, d)
  {
    hide HasCloser, Stuck;
  }

  lemma OnlyTheSweepLoses(before: seq<Step>, c: CallId, now: int, more: seq<Step>, s: Server, d: Debt, k: nat)
    requires After(before).Some? && Stuck(After(before).value.node.mem, c, now)
    requires After(before + [SweeperFires(c, now)] + more) == Some(s) && NoneFails(more, s, c) && d.call == c
    requires LosesAt(before + [SweeperFires(c, now)] + more, k, d)
    ensures k == |before|
  {
    hide HasCloser, MayClose, Open, After, Next, Enabled;
    var steps := before + [SweeperFires(c, now)] + more;
    var s1 := After(steps[..k]).value;
    if k < |before| {
      assert steps[..k] == before[..k] && LosesAt(before, k, d);
      LostExactly(before, d);
    } else if k > |before| {
      assert steps[k] == more[k - |before| - 1] && steps[k] in more;
      assert steps[..k] == before + [SweeperFires(c, now)] + more[..k-|before|-1];
      SweptIsGone(before, c, now, more[..k-|before|-1]);
      if steps[k].BatchFails? {
        assert s1.node.batches[steps[k].i].op.call == c by { CloserIsOfCall(s1.node.batches[steps[k].i], d); }
        assert steps == steps[..k] + steps[k..];
        OpsStay(steps[..k], steps[k..]);
      }
    }
  }

  /** A swept call never comes back. */
  lemma {:induction false} SweptIsGone(before: seq<Step>, c: CallId, now: int, more: seq<Step>)
    requires After(before).Some? && Stuck(After(before).value.node.mem, c, now)
    requires After(before + [SweeperFires(c, now)] + more).Some?
    ensures var s := After(before + [SweeperFires(c, now)] + more).value; c in s.log.used && !s.node.mem.Live(c)
  {
    hide Inv, Next, Enabled;
    var steps := before + [SweeperFires(c, now)] + more;
    RunKeepsInv(steps[..|steps|-1]);
    if more == [] {
      assert steps[..|steps|-1] == before;
      SweepRemoves(After(before).value, c, now);
    } else {
      var shorter := more[..|more|-1];
      assert steps[..|steps|-1] == before + [SweeperFires(c, now)] + shorter;
      SweptIsGone(before, c, now, shorter);
      DeadStaysDead(After(steps[..|steps|-1]).value, steps[|steps|-1], c);
    }
  }

  lemma SweepRemoves(s: Server, c: CallId, now: int)
    requires Inv(s) && Stuck(s.node.mem, c, now) && Enabled(s, SweeperFires(c, now))
    ensures var s' := Next(s, SweeperFires(c, now)); c in s'.log.used && !s'.node.mem.Live(c)
  {
    InvBooks(s);
    CallsAreUsed(s);
  }

  lemma DeadStaysDead(s: Server, step: Step, c: CallId)
    requires Inv(s) && Enabled(s, step) && c in s.log.used && !s.node.mem.Live(c)
    ensures c in Next(s, step).log.used && !Next(s, step).node.mem.Live(c)
  {
    hide Inv, Ordinary, GoOn, RollbackStrands, RollbackUntimes, Execute, Remove;
    match step
    case HandlerGoesOn(i) => LifeAfterGoOn(s.node, i, c);
    case Invites(_, _, _, _, _, _, _, _) =>
    case BatchCommits(_, _) =>
    case BatchFails(_) =>
    case SweeperFires(d, now) => SweptLife(s.node, d, now, c);
    case _ =>
      OrdinarySteps(s, step, c);
      OrdinaryLife(s.node, Next(s, step).node, c);
  }

  lemma SweptLife(n: Node, d: CallId, now: int, c: CallId)
    ensures SweepOne(n, d, now).mem.Live(c) ==> n.mem.Live(c)
  {
  }

  /** Batches are only ever added, and keep what they say. */
  lemma {:induction false} OpsStay(steps: seq<Step>, more: seq<Step>)
    requires After(steps).Some? && After(steps + more).Some?
    ensures var (n, n') := (After(steps).value.node, After(steps + more).value.node);
            |n.batches| <= |n'.batches| && forall i | 0 <= i < |n.batches| :: n'.batches[i].op == n.batches[i].op
  {
    hide Next, Enabled;
    if more == [] {
      assert steps + more == steps;
    } else {
      var shorter := more[..|more|-1];
      assert (steps + more)[..|steps + more|-1] == steps + shorter;
      OpsStay(steps, shorter);
      StepKeepsOps(After(steps + shorter).value, more[|more|-1]);
    }
  }

  lemma StepKeepsOps(s: Server, step: Step)
    requires Enabled(s, step)
    ensures var (n, n') := (s.node, Next(s, step).node);
            |n.batches| <= |n'.batches| && forall i | 0 <= i < |n.batches| :: n'.batches[i].op == n.batches[i].op
  {
    hide MemOrdinary, Rolled, Execute, Remove, MarkLeft, RevertOngoing, SetRingTimer, Create;
    if IsOrdinary(step) { hide Next; OrdinarySteps(s, step, 0); }
  }

  // ----- which ringing calls have a timer -----------------------------------------------------

  /**
   A live ringing call has its ring timer armed, or an invite that has yet to arm it,
   exactly when no rollback put it back to ringing after its timer had come and gone.
   */
  lemma RingingCallIsTimedExactly(s: Server, c: CallId)
    requires Reachable(s) && s.node.mem.Live(c) && s.node.mem.calls[c].status.Ringing?
    ensures (s.node.mem.calls[c].ringTimer.Some? || OpenInsert(s.node, c)) <==> c !in s.log.untimed
    ensures s.node.mem.calls[c].ringTimer.Some? ==> s.node.mem.calls[c].ringTimer.value in s.node.mem.armed
  {
    ReachableInv(s);
    hide UsersAgree, ConversationsAgree, AllCallsOk, Books, Shapes, RungAreOnline, OpenInsert;
    assert RingAt(s.node, s.log, c);
    assert s.node.mem.calls[c].ringTimer.Some? ==> RingHandle(s.node.mem, c, s.node.mem.calls[c].ringTimer.value);
  }

  /** The rollback of a failed first answer leaves the call ringing, timed exactly if it was before. */
  lemma RollbackKeepsTimerExactly(n: Node, i: nat)
    requires IsRollback(n, i) && n.mem.Live(n.batches[i].op.call)
    requires n.batches[i].op.becameOngoing && !n.batches[i].op.alreadyJoined
    ensures var (c, n') := (n.batches[i].op.call, GoOn(n, i));
            && n'.mem.Live(c) && n'.mem.calls[c].status.Ringing?
            && ((n'.mem.calls[c].ringTimer.Some? || OpenInsert(n', c)) <==> (n.mem.calls[c].ringTimer.Some? || OpenInsert(n, c)))
  {
    hide OpenInsert, MarkLeft, RevertOngoing;
    var c := n.batches[i].op.call;
    PhaseKeepsInsert(n, i, Closed, c);
    SameBatchesSameInsert(Close(n, i), GoOn(n, i), c);
    RollbackRecord(n.mem, n.batches[i].op, c);
  }

  /**
   The three maps never disagree, failed batches included: a user is busy exactly in
   the call they are joined in, a conversation's slot names exactly its live record,
   and at most four are joined.
   */
  lemma MapsAgree(s: Server)
    requires Reachable(s)
    ensures forall u, c :: (u in s.node.mem.byUser && s.node.mem.byUser[u] == c) <==> s.node.mem.IsJoined(c, u)
    ensures forall v | v in s.node.mem.byConversation ::
              s.node.mem.byConversation[v] in s.node.mem.calls && s.node.mem.calls[s.node.mem.byConversation[v]].conv == v
    ensures forall c | c in s.node.mem.calls ::
              s.node.mem.calls[c].conv in s.node.mem.byConversation && s.node.mem.byConversation[s.node.mem.calls[c].conv] == c
    ensures forall c | c in s.node.mem.calls :: |s.node.mem.calls[c].JoinedSet()| <= MAX_JOINED
  {
    ReachableInv(s);
    hide TimersAgree, Books, Shapes, RungAreOnline;
    assert forall c | c in s.node.mem.calls :: CallOk(s.node.mem.calls[c]);
  }

  /** Joined in two calls at once, or two live calls in one conversation: neither can happen. */
  lemma OneCallEach(s: Server, c: CallId, d: CallId, u: UserId)
    requires Reachable(s)
    ensures s.node.mem.IsJoined(c, u) && s.node.mem.IsJoined(d, u) ==> c == d
    ensures c in s.node.mem.calls && d in s.node.mem.calls && s.node.mem.calls[c].conv == s.node.mem.calls[d].conv ==> c == d
  {
    MapsAgree(s);
    assert s.node.mem.IsJoined(c, u) ==> s.node.mem.byUser[u] == c;
    assert s.node.mem.IsJoined(d, u) ==> s.node.mem.byUser[u] == d;
  }

  /** A live DIRECT call rings with its starter alone or is ongoing with both members, whatever fails. */
  lemma DirectCallShape(s: Server, c: CallId)
    requires Reachable(s) && s.node.mem.Live(c) && s.node.mem.calls[c].conv.Direct?
    ensures var call := s.node.mem.calls[c];
            && (call.status.Ringing? ==> call.JoinedSet() == {call.startedBy})
            && (call.status.Ongoing? ==> call.JoinedSet() == {call.conv.a, call.conv.b} && call.conv.a != call.conv.b)
            && (call.answeredAt.Some? <==> call.status.Ongoing?)
  {
    ReachableInv(s);
    hide TimersAgree, Books, RungAreOnline, UsersAgree, ConversationsAgree;
    assert ShapeAt(s.node, s.log.stranded, c) && CallOk(s.node.mem.calls[c]);
  }

  /** A live GROUP call that no rollback stranded has somebody in it and, ringing, somebody to answer. */
  lemma GroupCallShape(s: Server, c: CallId)
    requires Reachable(s) && s.node.mem.Live(c) && s.node.mem.calls[c].conv.Group?
    requires c !in s.log.stranded
    ensures var call := s.node.mem.calls[c];
            && call.JoinedSet() != {}
            && (call.status.Ringing? ==> call.JoinedSet() == {call.startedBy} && call.PendingSet() != {})
  {
    ReachableInv(s);
    hide TimersAgree, Books, RungAreOnline, UsersAgree, ConversationsAgree;
    assert ShapeAt(s.node, s.log.stranded, c);
  }

  /** ENDED, with a talk time, exactly for an answered call; MISSED or REJECTED only while ringing; REJECTED only in a DM. */
  lemma VerdictsFit(s: Server, b: Batch)
    requires Reachable(s) && b in s.node.batches && b.op.Finalize?
    ensures b.op.verdict.Ended? <==> !b.op.ringing
    ensures b.op.verdict.Ended? <==> b.op.durationSec.Some?
    ensures b.op.verdict.Rejected? ==> b.op.conv.Direct?
  {
    ReachableInv(s);
    hide TimersAgree, Books, RungAreOnline, UsersAgree, ConversationsAgree, ShapeAt, AllCallsOk;
    assert VerdictFits(b.op);
  }

  /** At most one finalizer is ever sent for a call, and at most one bubble ever lands. */
  lemma OneFinalizerOneBubble(s: Server, i: nat, j: nat)
    requires Reachable(s)
    ensures (&& i < |s.node.batches| && j < |s.node.batches|
             && s.node.batches[i].op.Finalize? && s.node.batches[j].op.Finalize?
             && s.node.batches[i].op.call == s.node.batches[j].op.call) ==> i == j
    ensures i < |s.db.bubbles| && j < |s.db.bubbles| && s.db.bubbles[i].call == s.db.bubbles[j].call ==> i == j
  {
    ReachableInv(s);
    hide MemInv, Shapes, RungAreOnline, RowsOwed, PartsOwed, InsertsOnce, IdsUsed;
  }

  /** A record marked terminal always has its own finalizer still to go on, which will free the slot. */
  lemma TerminalSlotWillBeFreed(s: Server, c: CallId)
    requires Reachable(s) && c in s.node.mem.calls && s.node.mem.calls[c].terminal
    ensures exists b | b in s.node.batches :: b.op.Finalize? && b.op.call == c && !b.phase.Closed?
  {
    ReachableInv(s);
    hide MemInv, Shapes, RungAreOnline, RowsOwed, PartsOwed, InsertsOnce, IdsUsed, BubblesOnce;
    var i :| 0 <= i < |s.node.batches| && FinalizerOf(s.node.batches[i], c) && !s.node.batches[i].phase.Closed?;
    assert s.node.batches[i] in s.node.batches;
  }

  /** ... and when it goes on, committed or failed, the record and both its map entries are gone. */
  lemma FinalizerFreesSlot(s: Server, i: nat)
    requires Reachable(s) && Enabled(s, HandlerGoesOn(i)) && s.node.batches[i].op.Finalize?
    ensures var (c, m) := (s.node.batches[i].op.call, Next(s, HandlerGoesOn(i)).node.mem);
            && c !in m.calls
            && (forall v | v in m.byConversation :: m.byConversation[v] != c)
            && (forall u | u in m.byUser :: m.byUser[u] != c)
            && (forall t | t in m.armed :: t.call != c)
  {
    hide MemInv, Books, Shapes, RungAreOnline, Next, Reachable;
    ReachableInv(s);
    StepKeepsInv(s, HandlerGoesOn(i));
    RemovedByFinalizer(s, i);
    NothingNamesIt(Next(s, HandlerGoesOn(i)).node.mem, s.node.batches[i].op.call);
  }

  lemma RemovedByFinalizer(s: Server, i: nat)
    requires Enabled(s, HandlerGoesOn(i)) && s.node.batches[i].op.Finalize?
    ensures s.node.batches[i].op.call !in Next(s, HandlerGoesOn(i)).node.mem.calls
  {
  }

  lemma NothingNamesIt(m: Mem, c: CallId)
    requires MemInv(m) && c !in m.calls
    ensures forall v | v in m.byConversation :: m.byConversation[v] != c
    ensures forall u | u in m.byUser :: m.byUser[u] != c
    ensures forall t | t in m.armed :: t.call != c
  {
    forall u | u in m.byUser ensures m.byUser[u] != c { assert m.IsJoined(m.byUser[u], u); }
    forall t | t in m.armed ensures t.call != c {
      assert t.RingTimer? ==> RingHandle(m, t.call, t);
      assert t.GraceTimer? ==> GraceHandle(m, t.call, t.user, t);
    }
  }

  /** One step never takes a call row out of a terminal status, late joins and the sweeper included. */
  lemma TerminalRowStays(s: Server, step: Step, c: CallId)
    requires Inv(s) && Enabled(s, step) && c in s.db.rows && s.db.rows[c].status.Terminal()
    ensures var s' := Next(s, step); c in s'.db.rows && s'.db.rows[c].status.Terminal()
  {
    hide MemInv, Shapes, RungAreOnline, RowsOwed, PartsOwed, FinalizesOnce, IdsUsed, BubblesOnce;
    if step.BatchCommits? { assert InsertsOnce(s.node, s.db); }
  }

  /** Over a whole run: once terminal, terminal for good. */
  lemma {:induction false} TerminalForever(before: seq<Step>, more: seq<Step>, c: CallId)
    requires After(before).Some? && After(before + more).Some?
    requires c in After(before).value.db.rows && After(before).value.db.rows[c].status.Terminal()
    ensures c in After(before + more).value.db.rows && After(before + more).value.db.rows[c].status.Terminal()
  {
    hide Inv, Next, Enabled;
    if more == [] {
      assert before + more == before;
    } else {
      var shorter := more[..|more|-1];
      assert (before + more)[..|before + more|-1] == before + shorter;
      TerminalForever(before, shorter, c);
      RunKeepsInv(before + shorter);
      TerminalRowStays(After(before + shorter).value, more[|more|-1], c);
    }
  }

  /** Whoever is still being rung has a connected socket. */
  lemma RungUserIsConnected(s: Server, c: CallId, u: UserId)
    requires Reachable(s) && s.node.mem.Live(c) && s.node.mem.IsPending(c, u)
    ensures SocketsOf(s.node.online, u) != {}
  {
    ReachableInv(s);
    hide MemInv, Shapes, Books;
    assert Count(s.node.online, u) > 0;
  }

  /**
   The listeners' order carries weight: with presence removed first, a user who
   still has another tab would be taken for gone and lose a ring.
   */
  lemma ListenerOrderMatters(n: Node, u: UserId, s: SocketId, other: SocketId, c: CallId, now: int)
    requires SocketsOf(n.online, u) == {s, other} && s != other
    requires n.mem.Live(c) && n.mem.IsPending(c, u) && n.mem.calls[c].conv.Direct? && u !in n.mem.byUser
    ensures Disconnect(n, u, s, [c], now).mem == n.mem
    ensures var presenceFirst := n.(online := RemoveSocket(n.online, u, s));
            !CallListener(presenceFirst, u, [c], now).mem.Live(c)
  {
    var presenceFirst := n.(online := RemoveSocket(n.online, u, s));
    SocketGone(n.online, u, s);
    assert {s, other} - {s} == {other};
    assert LoseOwnCall(presenceFirst, u, now) == presenceFirst;
    assert [c][..0] == [];
    assert LoseRings(presenceFirst, [], u, now) == presenceFirst;
    assert LoseRings(presenceFirst, [c], u, now) == LoseRing(presenceFirst, c, u, now);
  }

  /** A grace timer guards one joined user of a call in memory, one per participant; a ring timer such a call. */
  lemma TimersGuard(s: Server, t: Timer)
    requires Reachable(s) && t in s.node.mem.armed
    ensures t.call in s.node.mem.calls
    ensures t.GraceTimer? ==> s.node.mem.IsJoined(t.call, t.user)
    ensures forall t' | t' in s.node.mem.armed && t'.GraceTimer? && t.GraceTimer? && t'.call == t.call && t'.user == t.user ::
              t' == t
    ensures forall t' | t' in s.node.mem.armed && t'.RingTimer? && t.RingTimer? && t'.call == t.call :: t' == t
  {
    ReachableInv(s);
    hide UsersAgree, ConversationsAgree, AllCallsOk, Books, Shapes, RungAreOnline;
    var m := s.node.mem;
    assert t.RingTimer? ==> RingHandle(m, t.call, t);
    assert t.GraceTimer? ==> GraceHandle(m, t.call, t.user, t);
    forall t' | t' in m.armed && t'.GraceTimer? && t.GraceTimer? && t'.call == t.call && t'.user == t.user ensures t' == t {
      assert GraceHandle(m, t'.call, t'.user, t');
    }
    forall t' | t' in m.armed && t'.RingTimer? && t.RingTimer? && t'.call == t.call ensures t' == t {
      assert RingHandle(m, t'.call, t');
    }
  }

  lemma NoCallsNoTimers(s: Server)
    requires Reachable(s) && s.node.mem.calls == map[]
    ensures s.node.mem.armed == {} && s.node.mem.byUser == map[] && s.node.mem.byConversation == map[]
  {
    forall t ensures t !in s.node.mem.armed { if t in s.node.mem.armed { TimersGuard(s, t); } }
    MapsAgree(s);
    forall u ensures u !in s.node.mem.byUser {
      assert u in s.node.mem.byUser ==> s.node.mem.IsJoined(s.node.mem.byUser[u], u);
    }
  }
}
