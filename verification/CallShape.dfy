/**
 Who is in a live call: what a DIRECT one promises whatever fails, what a GROUP one promises
 up to the rollback of a failed join, and the verdict a finalizer writes. A DIRECT call
 rings with its starter alone or is ongoing with both; a GROUP call has somebody in it and,
 while it rings, somebody left to answer. What keeps this through rollbacks is that at most
 one join of a DIRECT call can still fail, and that it is the one that answered.
 */
module CallShape {
  import opened Common
  import opened CallModel
  import opened CallSegments
  import opened CallMemory

  // ----- the invariant ------------------------------------------------------------------

  predicate DirectShape(call: Call) {
    call.conv.Direct? ==>
      var (a, b) := (call.conv.a, call.conv.b);
      && a != b
      && (call.startedBy == a || call.startedBy == b)
      && call.people.Keys <= {a, b}
      && call.JoinedSet() == if call.status.Ringing? then {call.startedBy} else {a, b}
  }

  predicate GroupShape(call: Call) {
    call.conv.Group? ==>
      && call.JoinedSet() != {}
      && (call.status.Ringing? ==> call.JoinedSet() == {call.startedBy} && call.PendingSet() != {})
  }

  /** A join that reserved a seat and whose batch may still fail. */
  predicate FirstJoin(b: Batch, c: CallId) {
    && b.op.UpsertJoin? && b.op.call == c && !b.op.alreadyJoined
    && (b.phase.InFlight? || b.phase.Failed?)
  }

  /** In a DIRECT call at most one such join exists, and it is the one that answered the call. */
  ghost predicate JoinsFit(n: Node, c: CallId) {
    n.mem.Live(c) && n.mem.calls[c].conv.Direct? ==>
      && (forall i | 0 <= i < |n.batches| && FirstJoin(n.batches[i], c) ::
            && n.batches[i].op.becameOngoing
            && n.mem.calls[c].status.Ongoing?
            && n.batches[i].op.user != n.mem.calls[c].startedBy
            && n.batches[i].op.user in {n.mem.calls[c].conv.a, n.mem.calls[c].conv.b})
      && (forall i, j | 0 <= i < j < |n.batches| :: !(FirstJoin(n.batches[i], c) && FirstJoin(n.batches[j], c)))
  }

  ghost predicate ShapeAt(n: Node, failed: set<CallId>, c: CallId) {
    && (n.mem.Live(c) ==> DirectShape(n.mem.calls[c]) && (c !in failed ==> GroupShape(n.mem.calls[c])))
    && JoinsFit(n, c)
  }

  /** What a finalizer may write, given the status the call had. */
  predicate VerdictFits(op: Op) {
    op.Finalize? ==>
      && (op.verdict.Ended? <==> !op.ringing)
      && (op.verdict.Ended? <==> op.durationSec.Some?)
      && (op.verdict.Rejected? ==> op.conv.Direct?)
  }

  ghost predicate Verdicts(n: Node) {
    && (forall b | b in n.batches :: VerdictFits(b.op))
    && (forall b | b in n.batches && b.op.UpsertJoin? && b.op.becameOngoing :: !b.op.alreadyJoined)
  }

  ghost predicate ShapesBut(n: Node, failed: set<CallId>, x: set<CallId>) {
    && (forall c | c !in x :: ShapeAt(n, failed, c))
    && Verdicts(n)
  }

  ghost predicate Shapes(n: Node, failed: set<CallId>) { ShapesBut(n, failed, {}) }

  // ----- frames -----------------------------------------------------------------------------

  predicate SameRecord(m: Mem, m': Mem, d: CallId) {
    (d in m.calls <==> d in m'.calls) && (d in m.calls ==> m'.calls[d] == m.calls[d])
  }

  /** Every batch of `n'` that is a first join of `d` was one already, at the same index. */
  ghost predicate NoNewJoins(n: Node, n': Node, d: CallId) {
    forall i | 0 <= i < |n'.batches| && FirstJoin(n'.batches[i], d) ::
      i < |n.batches| && FirstJoin(n.batches[i], d) && n'.batches[i].op == n.batches[i].op
  }

  lemma ShapeAtStays(n: Node, n': Node, failed: set<CallId>, failed': set<CallId>, d: CallId)
    requires ShapeAt(n, failed, d) && SameRecord(n.mem, n'.mem, d) && NoNewJoins(n, n', d) && failed <= failed'
    ensures ShapeAt(n', failed', d)
  {
    hide FirstJoin, DirectShape, GroupShape;
  }

  /** A mutation of record `c` alone leaves every other call's shape as it was. */
  lemma OthersKeepShape(n: Node, n': Node, failed: set<CallId>, x: set<CallId>, c: CallId)
    requires ShapesBut(n, failed, x) && n'.batches == n.batches
    requires forall d | d != c :: SameRecord(n.mem, n'.mem, d)
    ensures ShapesBut(n', failed, x + {c})
  {
    hide ShapeAt, VerdictFits, SameRecord, FirstJoin;
    forall d | d !in x + {c} ensures ShapeAt(n', failed, d) {
      assert SameRecord(n.mem, n'.mem, d);
      SameBatchesNoNewJoins(n, n', d);
      ShapeAtStays(n, n', failed, failed, d);
    }
  }

  lemma SameBatchesNoNewJoins(n: Node, n': Node, d: CallId)
    requires n'.batches == n.batches
    ensures NoNewJoins(n, n', d)
  {
  }

  lemma SendKeepsShape(n: Node, op: Op, failed: set<CallId>, x: set<CallId>)
    requires ShapesBut(n, failed, x) && VerdictFits(op)
    requires op.UpsertJoin? ==> op.call in x && (op.becameOngoing ==> !op.alreadyJoined)
    ensures ShapesBut(Send(n, op), failed, x)
  {
    hide ShapeAt, VerdictFits;
    var n' := Send(n, op);
    forall d | d !in x ensures ShapeAt(n', failed, d) {
      assert NoNewJoins(n, n', d);
      ShapeAtStays(n, n', failed, failed, d);
    }
    forall b | b in n'.batches ensures b in n.batches || b == Batch(op, InFlight) {}
  }

  predicate VerdictAllowed(call: Call, verdict: Verdict) {
    && (verdict.Ended? <==> call.status.Ongoing?)
    && (verdict.Rejected? ==> call.conv.Direct?)
  }

  /** Ending the one call whose shape is broken mends everything. */
  lemma EndCallMends(n: Node, c: CallId, verdict: Verdict, now: int, failed: set<CallId>)
    requires ShapesBut(n, failed, {c})
    requires n.mem.Live(c) ==> CallOk(n.mem.calls[c]) && VerdictAllowed(n.mem.calls[c], verdict)
    ensures Shapes(EndCall(n, c, verdict, now), failed)
  {
    hide ShapeAt, VerdictFits, NoNewJoins;
    var n' := EndCall(n, c, verdict, now);
    DeadIsShapely(n', failed, c);
    if n.mem.Live(c) {
      var n1 := n.(mem := BeginTerminal(n.mem, c));
      OthersKeepShape(n, n1, failed, {c}, c);
      assert {c} + {c} == {c};
      FinalFits(c, n.mem.calls[c], verdict, now);
      SendKeepsShape(n1, FinalOp(c, n.mem.calls[c], verdict, now), failed, {c});
    }
  }

  lemma DeadIsShapely(n: Node, failed: set<CallId>, c: CallId)
    requires !n.mem.Live(c)
    ensures ShapeAt(n, failed, c)
  {
  }

  lemma FinalFits(c: CallId, call: Call, verdict: Verdict, now: int)
    requires CallOk(call) && VerdictAllowed(call, verdict)
    ensures VerdictFits(FinalOp(c, call, verdict, now))
  {
  }

  lemma Mended(n: Node, failed: set<CallId>, c: CallId)
    requires ShapesBut(n, failed, {c}) && ShapeAt(n, failed, c)
    ensures Shapes(n, failed)
  {
  }

  /** Timer bookkeeping changes no shape. */
  lemma TimersKeepShape(n: Node, n': Node, failed: set<CallId>)
    requires Shapes(n, failed) && OnlyTimers(n.mem, n'.mem) && n'.batches == n.batches
    ensures Shapes(n', failed)
  {
    hide VerdictFits, FirstJoin;
    forall c ensures ShapeAt(n', failed, c) { TimersKeepShapeAt(n, n', failed, c); }
  }

  lemma TimersKeepShapeAt(n: Node, n': Node, failed: set<CallId>, c: CallId)
    requires ShapeAt(n, failed, c) && OnlyTimers(n.mem, n'.mem) && n'.batches == n.batches
    ensures ShapeAt(n', failed, c)
  {
    hide FirstJoin;
    OnlyTimersRelation(n.mem, n'.mem);
    assert c in n.mem.calls ==> SameButTimers(n.mem.calls[c], n'.mem.calls[c]);
  }

  // ----- records under the mutators ---------------------------------------------------------

  lemma Sizes<T>(x: T, y: T)
    ensures |{x}| == 1 && (x != y ==> |{x, y}| == 2)
  {
  }

  lemma MarkJoinedOthers(m: Mem, c: CallId, u: UserId, now: int)
    ensures forall d | d != c :: SameRecord(m, MarkJoined(m, c, u, now), d)
    ensures forall d :: m.Live(d) <==> MarkJoined(m, c, u, now).Live(d)
  {
  }

  /** The record of a call somebody (re)joins keeps its shape; a new seat in a DIRECT call answers it. */
  lemma MarkJoinedRecord(m: Mem, c: CallId, u: UserId, now: int)
    requires m.Live(c) && DirectShape(m.calls[c])
    requires m.calls[c].conv.Direct? ==> u == m.calls[c].conv.a || u == m.calls[c].conv.b
    ensures var (call, call') := (m.calls[c], MarkJoined(m, c, u, now).calls[c]);
            && DirectShape(call')
            && (GroupShape(call) ==> GroupShape(call'))
            && call'.conv == call.conv && call'.startedBy == call.startedBy
            && (m.IsJoined(c, u) ==> call'.status == call.status)
            && (!m.IsJoined(c, u) ==> call'.status.Ongoing?)
            && (!m.IsJoined(c, u) && call.conv.Direct? ==> call.status.Ringing? && u != call.startedBy)
  {
    var call, call' := m.calls[c], MarkJoined(m, c, u, now).calls[c];
    assert call'.JoinedSet() == call.JoinedSet() + {u};
    assert m.IsJoined(c, u) <==> u in call.JoinedSet();
    if m.IsJoined(c, u) {
      assert call'.JoinedSet() == call.JoinedSet();
      assert call'.PendingSet() == call.PendingSet();
    }
  }

  /** A joined user leaving a DIRECT call always ends it; a GROUP call lives on unless it empties. */
  lemma MarkLeftRecord(m: Mem, c: CallId, u: UserId)
    requires m.Live(c) && m.IsJoined(c, u) && DirectShape(m.calls[c])
    ensures var (call, call') := (m.calls[c], MarkLeft(m, c, u).calls[c]);
            && call' == call.(people := call'.people)
            && call'.JoinedSet() == call.JoinedSet() - {u}
            && (call.conv.Direct? ==> EndsWithoutUser(call', |call'.JoinedSet()|))
            && (!EndsWithoutUser(call', |call'.JoinedSet()|) ==>
                  DirectShape(call') && (GroupShape(call) ==> GroupShape(call')))
  {
    MarkLeftRelation(m, c, u);
    var call, call' := m.calls[c], MarkLeft(m, c, u).calls[c];
    if call.conv.Direct? {
      var (a, b) := (call.conv.a, call.conv.b);
      Sizes(a, b);
      Sizes(call.startedBy, u);
      if call.status.Ringing? {
        assert call'.JoinedSet() == {};
      } else {
        assert call'.JoinedSet() == {if u == a then b else a};
      }
    }
  }

  lemma MarkLeftOthers(m: Mem, c: CallId, u: UserId)
    ensures forall d | d != c :: SameRecord(m, MarkLeft(m, c, u), d)
    ensures forall d :: m.Live(d) <==> MarkLeft(m, c, u).Live(d)
  {
  }

  /** Losing a pending ring touches nobody who is joined. */
  lemma RingLostRecord(call: Call, call': Call, u: UserId)
    requires call' == call.(people := call'.people) && u in call.people && call.people[u].Pending()
    requires call'.people == call.people[u := call.people[u].(rejected := true)]
          || call'.people == call.people[u := call.people[u].(rung := false)]
    requires DirectShape(call)
    ensures call'.JoinedSet() == call.JoinedSet()
    ensures call'.PendingSet() == call.PendingSet() - {u}
    ensures DirectShape(call')
    ensures GroupShape(call) && !(call'.status.Ringing? && call'.PendingSet() == {}) ==> GroupShape(call')
    ensures call.conv.Direct? ==> call.status.Ringing?
  {
    assert call'.JoinedSet() == call.JoinedSet();
    assert call'.PendingSet() == call.PendingSet() - {u};
    assert u !in call.JoinedSet();
  }

  // ----- segments ------------------------------------------------------------------------------

  /** JoinsFit reads only the fields that most mutators leave alone. */
  lemma JoinsFitStays(n: Node, n': Node, c: CallId)
    requires JoinsFit(n, c) && n'.batches == n.batches
    requires n'.mem.Live(c) ==>
      && n.mem.Live(c)
      && n'.mem.calls[c].conv == n.mem.calls[c].conv
      && n'.mem.calls[c].startedBy == n.mem.calls[c].startedBy
      && n'.mem.calls[c].status == n.mem.calls[c].status
    ensures JoinsFit(n', c)
  {
    hide FirstJoin;
  }

  lemma JoinKeepsShape(n: Node, c: CallId, u: UserId, member: bool, now: int, failed: set<CallId>)
    requires Shapes(n, failed)
    requires c in n.mem.calls && n.mem.calls[c].conv.Direct? && member ==>
               u == n.mem.calls[c].conv.a || u == n.mem.calls[c].conv.b
    ensures Shapes(Join(n, c, u, member, now), failed)
  {
    hide VerdictFits, DirectShape, GroupShape, FirstJoin;
    match JoinAnswerOf(n, c, u, member)
    case Joined(already, became) =>
      var n1 := n.(mem := MarkJoined(n.mem, c, u, now));
      var n2 := Join(n, c, u, member, now);
      assert ShapeAt(n, failed, c);
      MarkJoinedOthers(n.mem, c, u, now);
      OthersKeepShape(n, n1, failed, {}, c);
      MarkJoinedRecord(n.mem, c, u, now);
      assert VerdictFits(UpsertJoin(c, u, already, became)) by { NotAFinalizer(UpsertJoin(c, u, already, became)); }
      assert {} + {c} == {c};
      SendKeepsShape(n1, UpsertJoin(c, u, already, became), failed, {c});
      JoinFits(n, n2, c, u, already, became);
      Mended(n2, failed, c);
    case _ =>
  }

  lemma NotAFinalizer(op: Op)
    requires !op.Finalize?
    ensures VerdictFits(op)
  {
  }

  lemma JoinFits(n: Node, n': Node, c: CallId, u: UserId, already: bool, became: bool)
    requires JoinsFit(n, c) && n.mem.Live(c) && n'.mem.Live(c)
    requires n'.batches == n.batches + [Batch(UpsertJoin(c, u, already, became), InFlight)]
    requires n'.mem.calls[c].conv == n.mem.calls[c].conv && n'.mem.calls[c].startedBy == n.mem.calls[c].startedBy
    requires already ==> n'.mem.calls[c].status == n.mem.calls[c].status
    requires !already && n.mem.calls[c].conv.Direct? ==>
      && became && n.mem.calls[c].status.Ringing? && n'.mem.calls[c].status.Ongoing?
      && u != n.mem.calls[c].startedBy && u in {n.mem.calls[c].conv.a, n.mem.calls[c].conv.b}
    ensures JoinsFit(n', c)
  {
    forall i | 0 <= i < |n'.batches| && FirstJoin(n'.batches[i], c)
      ensures (i < |n.batches| && FirstJoin(n.batches[i], c) && n'.batches[i] == n.batches[i]) || (i == |n.batches| && !already)
    {}
  }

  lemma CancelKeepsShape(n: Node, c: CallId, u: UserId, now: int, failed: set<CallId>)
    requires Shapes(n, failed) && AllCallsOk(n.mem)
    ensures Shapes(Cancel(n, c, u, now), failed)
  {
    hide ShapeAt, Verdicts, EndCall, CallOk;
    if n.mem.Live(c) && n.mem.calls[c].status.Ringing? { EndCallMends(n, c, Missed, now, failed); }
  }

  lemma RejectKeepsShape(n: Node, c: CallId, u: UserId, now: int, failed: set<CallId>)
    requires Shapes(n, failed) && MemInv(n.mem)
    ensures Shapes(Reject(n, c, u, now), failed)
  {
    hide Verdicts, EndCall, CallOk, DirectShape, GroupShape, UsersAgree, TimersAgree, ConversationsAgree, FirstJoin;
    if n.mem.Live(c) && n.mem.IsPending(c, u) {
      var n1 := n.(mem := MarkRejected(n.mem, c, u));
      MarkRejectedKeeps(n.mem, c, u);
      assert ShapeAt(n, failed, c);
      RingLostRecord(n.mem.calls[c], n1.mem.calls[c], u);
      OthersKeepShape(n, n1, failed, {}, c);
      assert {} + {c} == {c};
      JoinsFitStays(n, n1, c);
      var call := n1.mem.calls[c];
      if call.conv.Direct? { EndCallMends(n1, c, Rejected, now, failed); }
      else if call.status.Ringing? && call.PendingSet() == {} { EndCallMends(n1, c, Missed, now, failed); }
      else { Mended(n1, failed, c); }
    }
  }

  lemma DepartKeepsShape(n: Node, c: CallId, u: UserId, now: int, failed: set<CallId>)
    requires Shapes(n, failed) && MemInv(n.mem) && n.mem.Live(c) && n.mem.IsJoined(c, u)
    ensures Shapes(Depart(n, c, u, now), failed)
  {
    hide Verdicts, EndCall, CallOk, DirectShape, GroupShape, UsersAgree, TimersAgree, ConversationsAgree, FirstJoin, VerdictFits;
    var n1 := n.(mem := MarkLeft(n.mem, c, u));
    MarkLeftKeeps(n.mem, c, u);
    assert ShapeAt(n, failed, c);
    MarkLeftRecord(n.mem, c, u);
    MarkLeftOthers(n.mem, c, u);
    OthersKeepShape(n, n1, failed, {}, c);
    assert {} + {c} == {c};
    JoinsFitStays(n, n1, c);
    var call := n1.mem.calls[c];
    if EndsWithoutUser(call, |call.JoinedSet()|) {
      EndCallMends(n1, c, Closing(call), now, failed);
    } else {
      Mended(n1, failed, c);
      NotAFinalizer(StampLeft(c, {u}));
      SendKeepsShape(n1, StampLeft(c, {u}), failed, {});
    }
  }

  lemma RingExpiresKeepsShape(n: Node, t: Timer, now: int, failed: set<CallId>)
    requires Shapes(n, failed) && MemInv(n.mem) && t in n.mem.armed && t.RingTimer?
    ensures Shapes(RingExpires(n, t, now), failed)
  {
    hide ShapeAt, Verdicts, EndCall, CallOk, UsersAgree, ConversationsAgree;
    var fired := Fire(n, t);
    var n1 := fired.(mem := ClearRingTimer(fired.mem, t.call));
    RingFiresTimers(n.mem, t);
    OnlyTimersKeeps(n.mem, n1.mem);
    TimersKeepShape(n, n1, failed);
    if n1.mem.Live(t.call) && n1.mem.calls[t.call].status.Ringing? { EndCallMends(n1, t.call, Missed, now, failed); }
  }

  // ----- disconnecting ---------------------------------------------------------------------------

  lemma LoseOwnCallKeepsShape(n: Node, u: UserId, now: int, failed: set<CallId>)
    requires Shapes(n, failed) && MemInv(n.mem)
    ensures Shapes(LoseOwnCall(n, u, now), failed)
  {
    hide ShapeAt, Verdicts, EndCall, CallOk, ConversationsAgree;
    if u in n.mem.byUser && n.mem.Live(n.mem.byUser[u]) {
      var c := n.mem.byUser[u];
      if n.mem.calls[c].status.Ringing? && n.mem.calls[c].startedBy == u {
        EndCallMends(n, c, Missed, now, failed);
      } else {
        assert n.mem.IsJoined(c, u);
        ArmGraceTimers(n, c, u);
        TimersKeepShape(n, StartGrace(n, c, u), failed);
      }
    }
  }

  lemma LoseRingKeepsShape(n: Node, c: CallId, u: UserId, now: int, failed: set<CallId>)
    requires Shapes(n, failed) && MemInv(n.mem) && n.mem.Live(c) && n.mem.IsPending(c, u)
    ensures Shapes(LoseRing(n, c, u, now), failed)
  {
    hide Verdicts, EndCall, CallOk, DirectShape, GroupShape, UsersAgree, TimersAgree, ConversationsAgree, FirstJoin;
    var n1 := n.(mem := MarkRungGone(n.mem, c, u));
    MarkRungGoneKeeps(n.mem, c, u);
    assert ShapeAt(n, failed, c);
    RingLostRecord(n.mem.calls[c], n1.mem.calls[c], u);
    OthersKeepShape(n, n1, failed, {}, c);
    assert {} + {c} == {c};
    JoinsFitStays(n, n1, c);
    var call := n1.mem.calls[c];
    if call.conv.Direct? { EndCallMends(n, c, Missed, now, failed); }
    else if call.status.Ringing? && call.PendingSet() == {} { EndCallMends(n1, c, Missed, now, failed); }
    else { Mended(n1, failed, c); }
  }

  lemma EndCallKeepsMem(n: Node, c: CallId, verdict: Verdict, now: int)
    requires MemInv(n.mem)
    ensures MemInv(EndCall(n, c, verdict, now).mem)
    ensures forall d | d != c :: SameRecord(n.mem, EndCall(n, c, verdict, now).mem, d)
    ensures EndCall(n, c, verdict, now).online == n.online
    ensures !EndCall(n, c, verdict, now).mem.Live(c)
  {
    hide MemInv;
    BeginTerminalKeeps(n.mem, c);
  }

  lemma LoseOwnCallKeepsMem(n: Node, u: UserId, now: int)
    requires MemInv(n.mem)
    ensures MemInv(LoseOwnCall(n, u, now).mem)
    ensures LoseOwnCall(n, u, now).online == n.online
  {
    hide AllCallsOk, ConversationsAgree, EndCall;
    if u in n.mem.byUser && n.mem.Live(n.mem.byUser[u]) {
      var c := n.mem.byUser[u];
      EndCallKeepsMem(n, c, Missed, now);
      assert n.mem.IsJoined(c, u);
      ArmGraceTimers(n, c, u);
      OnlyTimersKeeps(n.mem, StartGrace(n, c, u).mem);
    }
  }

  lemma LoseRingKeepsMem(n: Node, c: CallId, u: UserId, now: int)
    requires MemInv(n.mem)
    ensures MemInv(LoseRing(n, c, u, now).mem)
    ensures LoseRing(n, c, u, now).online == n.online
    ensures forall d | d != c :: SameRecord(n.mem, LoseRing(n, c, u, now).mem, d)
    ensures n.mem.Live(c) ==> !LoseRing(n, c, u, now).mem.Live(c) || !LoseRing(n, c, u, now).mem.IsPending(c, u)
  {
    hide MemInv, EndCall;
    if c in n.mem.calls {
      var n1 := n.(mem := MarkRungGone(n.mem, c, u));
      MarkRungGoneKeeps(n.mem, c, u);
      EndCallKeepsMem(n, c, Missed, now);
      EndCallKeepsMem(n1, c, Missed, now);
      forall d | d != c ensures SameRecord(n.mem, LoseRing(n, c, u, now).mem, d) {
        assert SameRecord(n.mem, n1.mem, d) && SameRecord(n1.mem, EndCall(n1, c, Missed, now).mem, d);
        assert SameRecord(n.mem, EndCall(n, c, Missed, now).mem, d);
      }
    }
  }

  /** The ring loop: each listed ring is lost, no other record is touched. */
  lemma {:induction false} LoseRingsWalk(n: Node, rings: seq<CallId>, u: UserId, now: int, failed: set<CallId>)
    requires Shapes(n, failed) && MemInv(n.mem)
    requires forall i, j | 0 <= i < j < |rings| :: rings[i] != rings[j]
    requires forall c | c in rings :: n.mem.Live(c) && n.mem.IsPending(c, u)
    ensures var n' := LoseRings(n, rings, u, now);
            && Shapes(n', failed) && MemInv(n'.mem) && n'.online == n.online
            && (forall d | d !in rings :: SameRecord(n.mem, n'.mem, d))
            && (forall c | c in rings :: !n'.mem.Live(c) || !n'.mem.IsPending(c, u))
  {
    hide Shapes, MemInv, LoseRing;
    if rings != [] {
      var (front, c) := (rings[..|rings|-1], rings[|rings|-1]);
      forall d | d in front ensures d in rings {}
      LoseRingsWalk(n, front, u, now, failed);
      var n1 := LoseRings(n, front, u, now);
      assert c !in front && c in rings;
      assert rings == front + [c];
      assert SameRecord(n.mem, n1.mem, c);
      LoseRingKeepsShape(n1, c, u, now, failed);
      LoseRingKeepsMem(n1, c, u, now);
      var n2 := LoseRing(n1, c, u, now);
      forall d | d !in rings ensures SameRecord(n.mem, n2.mem, d) {
        assert d !in front && d != c;
        assert SameRecord(n.mem, n1.mem, d) && SameRecord(n1.mem, n2.mem, d);
      }
      forall d | d in rings ensures !n2.mem.Live(d) || !n2.mem.IsPending(d, u) {
        if d in front { assert d != c && SameRecord(n1.mem, n2.mem, d); }
      }
    }
  }

  // ----- kicking -------------------------------------------------------------------------------------

  /** Up to the flag `ends`, the loop keeps the shape of the one call it works on. */
  ghost predicate KickFits(k: KickState, c: CallId, call: Call, failed: set<CallId>) {
    && k.mem.Live(c)
    && k.mem.calls[c].conv == call.conv && k.mem.calls[c].startedBy == call.startedBy
    && k.mem.calls[c].status == call.status
    && (k.ends || (DirectShape(k.mem.calls[c]) && (c !in failed ==> GroupShape(k.mem.calls[c]))))
  }

  lemma KickOneFits(k: KickState, c: CallId, u: UserId, call: Call, failed: set<CallId>)
    requires MemInv(k.mem) && KickFits(k, c, call, failed)
    ensures MemInv(KickOne(k, c, u).mem) && KickFits(KickOne(k, c, u), c, call, failed)
    ensures forall d | d != c :: SameRecord(k.mem, KickOne(k, c, u).mem, d)
  {
    hide MemInv, GroupShape, DirectShape;
    if k.mem.IsJoined(c, u) {
      MarkLeftKeeps(k.mem, c, u);
      MarkLeftOthers(k.mem, c, u);
      MarkLeftRelation(k.mem, c, u);
      if !k.ends { MarkLeftRecord(k.mem, c, u); }
    } else if k.mem.IsPending(c, u) {
      MarkRungGoneKeeps(k.mem, c, u);
      if !k.ends { RingLostRecord(k.mem.calls[c], MarkRungGone(k.mem, c, u).calls[c], u); }
    }
  }

  lemma {:induction false} KickAllFits(k: KickState, c: CallId, users: seq<UserId>, call: Call, failed: set<CallId>)
    requires MemInv(k.mem) && KickFits(k, c, call, failed)
    ensures MemInv(KickAll(k, c, users).mem) && KickFits(KickAll(k, c, users), c, call, failed)
    ensures forall d | d != c :: SameRecord(k.mem, KickAll(k, c, users).mem, d)
  {
    hide MemInv, KickFits, KickOne;
    if users != [] {
      var k1 := KickAll(k, c, users[..|users|-1]);
      KickAllFits(k, c, users[..|users|-1], call, failed);
      KickOneFits(k1, c, users[|users|-1], call, failed);
      forall d | d != c ensures SameRecord(k.mem, KickAll(k, c, users).mem, d) {
        assert SameRecord(k.mem, k1.mem, d) && SameRecord(k1.mem, KickAll(k, c, users).mem, d);
      }
    }
  }

  lemma KickKeepsShape(n: Node, conv: Conversation, users: seq<UserId>, now: int, failed: set<CallId>)
    requires Shapes(n, failed) && MemInv(n.mem)
    ensures Shapes(Kick(n, conv, users, now), failed)
    ensures MemInv(Kick(n, conv, users, now).mem)
  {
    hide Verdicts, EndCall, CallOk, DirectShape, GroupShape, UsersAgree, TimersAgree, ConversationsAgree, FirstJoin, VerdictFits, KickAll;
    if conv in n.mem.byConversation && n.mem.Live(n.mem.byConversation[conv]) {
      var c := n.mem.byConversation[conv];
      assert ShapeAt(n, failed, c);
      var k0 := KickState(n.mem, {}, false);
      KickAllFits(k0, c, users, n.mem.calls[c], failed);
      var k := KickAll(k0, c, users);
      var n1 := n.(mem := k.mem);
      OthersKeepShape(n, n1, failed, {}, c);
      assert {} + {c} == {c};
      JoinsFitStays(n, n1, c);
      EndCallKeepsMem(n1, c, Closing(k.mem.calls[c]), now);
      if k.ends {
        EndCallMends(n1, c, Closing(k.mem.calls[c]), now, failed);
      } else {
        Mended(n1, failed, c);
        NotAFinalizer(StampLeft(c, k.left));
        SendKeepsShape(n1, StampLeft(c, k.left), failed, {});
      }
    }
  }

  // ----- creating, answering, going on ------------------------------------------------------------------

  lemma CreateKeepsShape(n: Node, c: CallId, u: UserId, conv: Conversation, kind: Kind, rung: set<UserId>, now: int,
                         failed: set<CallId>)
    requires Shapes(n, failed) && u !in rung && rung != {}
    requires forall b | b in n.batches :: b.op.call != c
    requires conv.Direct? ==> conv.a != conv.b && (u == conv.a || u == conv.b) && rung <= {conv.a, conv.b}
    ensures Shapes(Send(n.(mem := Create(n.mem, c, conv, kind, u, rung, now)), InsertCall(c, conv, kind, u, rung)), failed)
  {
    hide VerdictFits, FirstJoin;
    var n1 := n.(mem := Create(n.mem, c, conv, kind, u, rung, now));
    var n' := Send(n1, InsertCall(c, conv, kind, u, rung));
    forall d | d != c ensures SameRecord(n.mem, n1.mem, d) {}
    OthersKeepShape(n, n1, failed, {}, c);
    assert {} + {c} == {c};
    NotAFinalizer(InsertCall(c, conv, kind, u, rung));
    SendKeepsShape(n1, InsertCall(c, conv, kind, u, rung), failed, {c});
    NewCallShape(conv, kind, u, rung, now);
    forall i | 0 <= i < |n'.batches| ensures !FirstJoin(n'.batches[i], c) {
      NotAFirstJoin(n, n', i, c);
    }
    Mended(n', failed, c);
  }

  lemma NotAFirstJoin(n: Node, n': Node, i: nat, c: CallId)
    requires forall b | b in n.batches :: b.op.call != c
    requires |n'.batches| == |n.batches| + 1 && n'.batches[..|n.batches|] == n.batches
    requires !n'.batches[|n.batches|].op.UpsertJoin? && i < |n'.batches|
    ensures !FirstJoin(n'.batches[i], c)
  {
    if i < |n.batches| {
      assert n'.batches[i] == n'.batches[..|n.batches|][i];
      assert n'.batches[i] in n.batches;
    }
  }

  lemma NewCallShape(conv: Conversation, kind: Kind, u: UserId, rung: set<UserId>, now: int)
    requires u !in rung && rung != {}
    requires conv.Direct? ==> conv.a != conv.b && (u == conv.a || u == conv.b) && rung <= {conv.a, conv.b}
    ensures var call := NewCall(conv, kind, u, rung, now); DirectShape(call) && GroupShape(call)
  {
    var call := NewCall(conv, kind, u, rung, now);
    assert call.JoinedSet() == {u};
    assert call.PendingSet() == rung;
  }

  /** A batch changing phase, or being closed, creates no first join. */
  lemma PhaseKeepsShape(n: Node, i: nat, phase: Phase, failed: set<CallId>, failed': set<CallId>)
    requires Shapes(n, failed) && i < |n.batches| && failed <= failed'
    requires n.batches[i].phase.InFlight? || !phase.Failed?
    requires !phase.InFlight?
    ensures Shapes(n.(batches := n.batches[i := n.batches[i].(phase := phase)]), failed')
  {
    hide ShapeAt, VerdictFits;
    var n' := n.(batches := n.batches[i := n.batches[i].(phase := phase)]);
    forall c ensures ShapeAt(n', failed', c) {
      assert NoNewJoins(n, n', c);
      ShapeAtStays(n, n', failed, failed', c);
    }
    forall b | b in n'.batches
      ensures VerdictFits(b.op) && (b.op.UpsertJoin? && b.op.becameOngoing ==> !b.op.alreadyJoined)
    {
      var j :| 0 <= j < |n'.batches| && n'.batches[j] == b;
      assert n.batches[j] in n.batches && b.op == n.batches[j].op;
    }
  }

  lemma RemoveKeepsShape(n: Node, c: CallId, failed: set<CallId>)
    requires Shapes(n, failed)
    ensures Shapes(n.(mem := Remove(n.mem, c)), failed)
  {
    hide ShapeAt, Verdicts;
    var n' := n.(mem := Remove(n.mem, c));
    OthersKeepShape(n, n', failed, {}, c);
    DeadIsShapely(n', failed, c);
    assert {} + {c} == {c};
    Mended(n', failed, c);
  }

  /**
   The rollback of a failed first join puts a DIRECT call back exactly as it was before
   the join; a GROUP call it does not strand keeps its shape.
   */
  lemma RollbackKeepsShape(n: Node, i: nat, failed: set<CallId>, failed': set<CallId>)
    requires Shapes(n, failed) && IsRollback(n, i) && failed <= failed'
    requires RollbackStrands(n, i) ==> n.batches[i].op.call in failed'
    ensures Shapes(GoOn(n, i), failed')
  {
    hide Verdicts, DirectShape, GroupShape, FirstJoin, RollbackStrands;
    var op := n.batches[i].op;
    var c := op.call;
    var n1 := Close(n, i);
    var n' := GoOn(n, i);
    PhaseKeepsShape(n, i, Closed, failed, failed');
    RollbackOthers(n1.mem, op);
    assert n' == n1.(mem := RolledBack(n1.mem, op));
    OthersKeepShape(n1, n', failed', {}, c);
    assert {} + {c} == {c};
    assert ShapeAt(n, failed, c);
    RollbackShapeAt(n, i, failed, failed');
    Mended(n', failed', c);
  }

  function RolledBack(m: Mem, op: Op): Mem
    requires op.UpsertJoin?
  {
    var m1 := if op.alreadyJoined then m else MarkLeft(m, op.call, op.user);
    if op.becameOngoing then RevertOngoing(m1, op.call) else m1
  }

  lemma RollbackOthers(m: Mem, op: Op)
    requires op.UpsertJoin?
    ensures forall d | d != op.call :: SameRecord(m, RolledBack(m, op), d)
    ensures forall d :: m.Live(d) <==> RolledBack(m, op).Live(d)
  {
  }

  lemma RollbackShapeAt(n: Node, i: nat, failed: set<CallId>, failed': set<CallId>)
    requires IsRollback(n, i) && failed <= failed'
    requires ShapeAt(n, failed, n.batches[i].op.call) && Verdicts(n)
    requires RollbackStrands(n, i) ==> n.batches[i].op.call in failed'
    ensures ShapeAt(GoOn(n, i), failed', n.batches[i].op.call)
  {
    var op := n.batches[i].op;
    var c := op.call;
    assert n.batches[i] in n.batches;
    RollbackOthers(n.mem, op);
    if n.mem.Live(c) && n.mem.calls[c].conv.Direct? {
      DirectRollback(n, i, failed, failed');
    } else if n.mem.Live(c) {
      RollbackConv(n.mem, op);
      if c !in failed' { RollbackKeepsGroupShapeExactly(n, i); }
    }
  }

  lemma DirectRollback(n: Node, i: nat, failed: set<CallId>, failed': set<CallId>)
    requires IsRollback(n, i) && ShapeAt(n, failed, n.batches[i].op.call) && Verdicts(n)
    requires n.mem.Live(n.batches[i].op.call) && n.mem.calls[n.batches[i].op.call].conv.Direct?
    ensures ShapeAt(GoOn(n, i), failed', n.batches[i].op.call)
  {
    var op := n.batches[i].op;
    var c := op.call;
    var n' := GoOn(n, i);
    assert n.batches[i] in n.batches;
    RollbackOthers(n.mem, op);
    var call, call' := n.mem.calls[c], n'.mem.calls[c];
    if op.alreadyJoined {
      assert call' == call;
    } else {
      assert FirstJoin(n.batches[i], c);
      MarkLeftRelation(n.mem, c, op.user);
      assert call'.JoinedSet() == MarkLeft(n.mem, c, op.user).calls[c].JoinedSet();
      assert call'.JoinedSet() == {call.startedBy};
    }
    forall j | 0 <= j < |n'.batches| && FirstJoin(n'.batches[j], c)
      ensures j != i && FirstJoin(n.batches[j], c) && op.alreadyJoined
    {}
  }

  /**
   Exactly when the rollback of a failed join leaves a GROUP call in shape: what it
   leaves ringing must have its starter alone and somebody else still rung; what it
   leaves ongoing must have somebody else joined. The handler asks neither.
   */
  lemma RollbackKeepsGroupShapeExactly(n: Node, i: nat)
    requires IsRollback(n, i)
    requires var op := n.batches[i].op;
             && n.mem.Live(op.call) && n.mem.calls[op.call].conv.Group?
             && GroupShape(n.mem.calls[op.call])
             && (op.becameOngoing ==> !op.alreadyJoined)
    ensures var op := n.batches[i].op;
            op.call in GoOn(n, i).mem.calls &&
            (GroupShape(GoOn(n, i).mem.calls[op.call]) <==> OthersRemain(n.mem.calls[op.call], op))
  {
    var op := n.batches[i].op;
    var (c, u) := (op.call, op.user);
    if !op.alreadyJoined {
      MarkLeftRelation(n.mem, c, u);
      var left := MarkLeft(n.mem, c, u).calls[c];
      LeaverIsNotPending(n.mem, c, u);
      var call' := GoOn(n, i).mem.calls[c];
      assert call'.people == left.people;
      assert call'.JoinedSet() == left.JoinedSet() && call'.PendingSet() == left.PendingSet();
    }
  }

  lemma LeaverIsNotPending(m: Mem, c: CallId, u: UserId)
    requires c in m.calls
    ensures MarkLeft(m, c, u).calls[c].PendingSet() == m.calls[c].PendingSet() - {u}
  {
  }

  lemma RollbackConv(m: Mem, op: Op)
    requires op.UpsertJoin? && op.call in m.calls
    ensures RolledBack(m, op).calls[op.call].conv == m.calls[op.call].conv
  {
  }

  lemma GoOnKeepsShape(n: Node, i: nat, failed: set<CallId>, failed': set<CallId>)
    requires Shapes(n, failed) && MemInv(n.mem) && i < |n.batches| && failed <= failed'
    requires n.batches[i].phase.Committed? || n.batches[i].phase.Failed?
    requires RollbackStrands(n, i) ==> n.batches[i].op.call in failed'
    requires n.batches[i].op.InsertCall? && n.mem.Live(n.batches[i].op.call) ==>
               n.mem.calls[n.batches[i].op.call].ringTimer.None?
    ensures Shapes(GoOn(n, i), failed')
    ensures MemInv(GoOn(n, i).mem)
  {
    hide Shapes, UsersAgree, ConversationsAgree, AllCallsOk, TimersAgree, MarkLeft, RevertOngoing, Remove, SetRingTimer, RollbackStrands;
    var b := n.batches[i];
    var n1 := Close(n, i);
    PhaseKeepsShape(n, i, Closed, failed, failed');
    match b.op
    case InsertCall(c, _, _, _, _) =>
      if b.phase.Failed? {
        RemoveKeepsShape(n1, c, failed');
        RemoveKeeps(n.mem, c);
      } else if n.mem.Live(c) {
        ArmRingTimers(n.mem, c);
        OnlyTimersKeeps(n.mem, ArmRing(n.mem, c));
        TimersKeepShape(n1, GoOn(n, i), failed');
      } else { StampKeepsShape(n1, StampOrphan(c), failed'); }
    case UpsertJoin(c, u, already, became) =>
      if b.phase.Failed? {
        RollbackKeepsShape(n, i, failed, failed');
        MarkLeftKeeps(n.mem, c, u);
        RevertOngoingKeeps(if already then n.mem else MarkLeft(n.mem, c, u), c);
      } else if !n.mem.Live(c) { StampKeepsShape(n1, Restamp(c, u), failed'); }
    case Finalize(c, _, _, _, _, _) =>
      RemoveKeepsShape(n1, c, failed');
      RemoveKeeps(n.mem, c);
    case _ =>
  }

  lemma StampKeepsShape(n: Node, op: Op, failed: set<CallId>)
    requires Shapes(n, failed) && !op.Finalize? && !op.UpsertJoin?
    ensures Shapes(Send(n, op), failed)
  {
    hide ShapeAt, Verdicts, VerdictFits;
    NotAFinalizer(op);
    SendKeepsShape(n, op, failed, {});
  }
}
