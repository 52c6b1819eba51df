/** The invariant of the whole system, kept by every step, and what it says of every run. */
module CallTheorems {
  import opened Common
  import opened CallModel
  import opened CallSegments
  import opened CallProtocol
  import opened CallMemory
  import opened CallShape
  import opened CallBooks
  import opened CallSteps
  import opened CallRings

  // ----- rung users are connected ------------------------------------------------------------

  ghost predicate RungAreOnline(n: Node) {
    forall c, u | n.mem.Live(c) && n.mem.IsPending(c, u) :: Count(n.online, u) > 0
  }

  /** No ring becomes pending. */
  ghost predicate Shrinks(m: Mem, m': Mem) {
    forall c, u | m'.Live(c) && m'.IsPending(c, u) :: m.Live(c) && m.IsPending(c, u)
  }

  lemma ShrinksKeeps(n: Node, n': Node)
    requires RungAreOnline(n) && Shrinks(n.mem, n'.mem) && n'.online == n.online
    ensures RungAreOnline(n')
  {
  }

  lemma ShrinksTwice(m: Mem, m1: Mem, m2: Mem)
    requires Shrinks(m, m1) && Shrinks(m1, m2)
    ensures Shrinks(m, m2)
  {
  }

  lemma TimersShrink(m: Mem, m': Mem)
    requires OnlyTimers(m, m')
    ensures Shrinks(m, m')
  {
    OnlyTimersRelation(m, m');
    forall c | m'.Live(c) ensures m.Live(c) { assert SameButTimers(m.calls[c], m'.calls[c]); }
  }

  lemma MutatorsShrink(m: Mem, c: CallId, u: UserId, now: int)
    ensures Shrinks(m, MarkJoined(m, c, u, now))
    ensures Shrinks(m, MarkLeft(m, c, u))
    ensures Shrinks(m, MarkRejected(m, c, u))
    ensures Shrinks(m, MarkRungGone(m, c, u))
  {
    MarkJoinedShrinks(m, c, u, now);
    MarkLeftShrinks(m, c, u);
    FlagsShrink(m, c, u);
  }

  lemma MarkJoinedShrinks(m: Mem, c: CallId, u: UserId, now: int)
    ensures Shrinks(m, MarkJoined(m, c, u, now))
  {
  }

  lemma MarkLeftShrinks(m: Mem, c: CallId, u: UserId)
    ensures Shrinks(m, MarkLeft(m, c, u))
  {
  }

  lemma FlagsShrink(m: Mem, c: CallId, u: UserId)
    ensures Shrinks(m, MarkRejected(m, c, u))
    ensures Shrinks(m, MarkRungGone(m, c, u))
  {
  }

  lemma LifecycleShrinks(m: Mem, c: CallId)
    ensures Shrinks(m, BeginTerminal(m, c))
    ensures Shrinks(m, Remove(m, c))
    ensures Shrinks(m, RevertOngoing(m, c))
  {
  }

  lemma EndCallShrinks(n: Node, c: CallId, verdict: Verdict, now: int)
    ensures Shrinks(n.mem, EndCall(n, c, verdict, now).mem) && EndCall(n, c, verdict, now).online == n.online
  {
    LifecycleShrinks(n.mem, c);
    ShrinksItself(n.mem);
  }

  lemma ShrinksItself(m: Mem)
    ensures Shrinks(m, m)
  {
  }

  lemma DepartShrinks(n: Node, c: CallId, u: UserId, now: int)
    requires c in n.mem.calls
    ensures Shrinks(n.mem, Depart(n, c, u, now).mem) && Depart(n, c, u, now).online == n.online
  {
    hide Shrinks, EndCall;
    var n1 := n.(mem := MarkLeft(n.mem, c, u));
    MarkLeftShrinks(n.mem, c, u);
    EndCallShrinks(n1, c, Closing(n1.mem.calls[c]), now);
    ShrinksTwice(n.mem, n1.mem, EndCall(n1, c, Closing(n1.mem.calls[c]), now).mem);
  }

  lemma RejectShrinks(n: Node, c: CallId, u: UserId, now: int)
    ensures Shrinks(n.mem, Reject(n, c, u, now).mem) && Reject(n, c, u, now).online == n.online
  {
    hide Shrinks, EndCall;
    var n1 := n.(mem := MarkRejected(n.mem, c, u));
    FlagsShrink(n.mem, c, u);
    ShrinksItself(n.mem);
    EndCallShrinks(n1, c, Rejected, now);
    EndCallShrinks(n1, c, Missed, now);
    ShrinksTwice(n.mem, n1.mem, EndCall(n1, c, Rejected, now).mem);
    ShrinksTwice(n.mem, n1.mem, EndCall(n1, c, Missed, now).mem);
  }

  lemma LoseOwnCallShrinks(n: Node, u: UserId, now: int)
    requires MemInv(n.mem)
    ensures Shrinks(n.mem, LoseOwnCall(n, u, now).mem)
  {
    hide Shrinks, EndCall;
    ShrinksItself(n.mem);
    if u in n.mem.byUser && n.mem.Live(n.mem.byUser[u]) {
      var c := n.mem.byUser[u];
      EndCallShrinks(n, c, Missed, now);
      assert n.mem.IsJoined(c, u);
      ArmGraceTimers(n, c, u);
      TimersShrink(n.mem, StartGrace(n, c, u).mem);
    }
  }

  lemma LoseRingShrinks(n: Node, c: CallId, u: UserId, now: int)
    ensures Shrinks(n.mem, LoseRing(n, c, u, now).mem)
  {
    hide Shrinks, EndCall;
    ShrinksItself(n.mem);
    if c in n.mem.calls {
      var n1 := n.(mem := MarkRungGone(n.mem, c, u));
      FlagsShrink(n.mem, c, u);
      EndCallShrinks(n, c, Missed, now);
      EndCallShrinks(n1, c, Missed, now);
      ShrinksTwice(n.mem, n1.mem, EndCall(n1, c, Missed, now).mem);
    }
  }

  lemma {:induction false} LoseRingsShrinks(n: Node, rings: seq<CallId>, u: UserId, now: int)
    ensures Shrinks(n.mem, LoseRings(n, rings, u, now).mem)
  {
    hide Shrinks, LoseRing;
    ShrinksItself(n.mem);
    if rings != [] {
      var n1 := LoseRings(n, rings[..|rings|-1], u, now);
      LoseRingsShrinks(n, rings[..|rings|-1], u, now);
      LoseRingShrinks(n1, rings[|rings|-1], u, now);
      ShrinksTwice(n.mem, n1.mem, LoseRings(n, rings, u, now).mem);
    }
  }

  lemma {:induction false} KickAllShrinks(k: KickState, c: CallId, users: seq<UserId>)
    ensures Shrinks(k.mem, KickAll(k, c, users).mem)
  {
    hide Shrinks;
    ShrinksItself(k.mem);
    if users != [] {
      var k1 := KickAll(k, c, users[..|users|-1]);
      KickAllShrinks(k, c, users[..|users|-1]);
      MutatorsShrink(k1.mem, c, users[|users|-1], 0);
      ShrinksItself(k1.mem);
      ShrinksTwice(k.mem, k1.mem, KickAll(k, c, users).mem);
    }
  }

  lemma KickShrinks(n: Node, conv: Conversation, users: seq<UserId>, now: int)
    ensures Shrinks(n.mem, Kick(n, conv, users, now).mem) && Kick(n, conv, users, now).online == n.online
  {
    hide Shrinks, EndCall, KickAll;
    ShrinksItself(n.mem);
    if conv in n.mem.byConversation && n.mem.Live(n.mem.byConversation[conv]) {
      var c := n.mem.byConversation[conv];
      var k := KickAll(KickState(n.mem, {}, false), c, users);
      var n1 := n.(mem := k.mem);
      KickAllShrinks(KickState(n.mem, {}, false), c, users);
      if c in k.mem.calls {
        EndCallShrinks(n1, c, Closing(k.mem.calls[c]), now);
        ShrinksTwice(n.mem, n1.mem, EndCall(n1, c, Closing(k.mem.calls[c]), now).mem);
      }
    }
  }

  lemma GoOnShrinks(n: Node, i: nat)
    requires i < |n.batches|
    requires n.batches[i].op.InsertCall? && n.mem.Live(n.batches[i].op.call) ==>
               n.mem.calls[n.batches[i].op.call].ringTimer.None?
    requires TimersAgree(n.mem)
    ensures Shrinks(n.mem, GoOn(n, i).mem) && GoOn(n, i).online == n.online
  {
    hide Shrinks, MarkLeft, RevertOngoing, Remove;
    var op := n.batches[i].op;
    ShrinksItself(n.mem);
    LifecycleShrinks(n.mem, op.call);
    if op.InsertCall? && n.mem.Live(op.call) {
      ArmRingTimers(n.mem, op.call);
      TimersShrink(n.mem, ArmRing(n.mem, op.call));
    }
    if op.UpsertJoin? {
      MarkLeftShrinks(n.mem, op.call, op.user);
      var m1 := MarkLeft(n.mem, op.call, op.user);
      LifecycleShrinks(m1, op.call);
      ShrinksTwice(n.mem, m1, RevertOngoing(m1, op.call));
    }
  }

  /** Everyone still rung has a socket left once both disconnecting listeners have run. */
  lemma DisconnectKeepsOnline(n: Node, u: UserId, s: SocketId, rings: seq<CallId>, now: int, failed: set<CallId>)
    requires RungAreOnline(n) && MemInv(n.mem) && Shapes(n, failed) && s in SocketsOf(n.online, u)
    requires Lists(rings, (if Count(n.online, u) > 1 then n else LoseOwnCall(n, u, now)).mem.RingsFor(u))
    ensures RungAreOnline(Disconnect(n, u, s, rings, now))
    ensures MemInv(Disconnect(n, u, s, rings, now).mem) && Shapes(Disconnect(n, u, s, rings, now), failed)
  {
    hide Shrinks, MemInv, ShapeAt, Verdicts, LoseOwnCall, LoseRings;
    var n1 := CallListener(n, u, rings, now);
    var n' := Disconnect(n, u, s, rings, now);
    SocketGone(n.online, u, s);
    if Count(n.online, u) <= 1 {
      var own := LoseOwnCall(n, u, now);
      LoseOwnCallKeepsShape(n, u, now, failed);
      LoseOwnCallKeepsMem(n, u, now);
      LoseOwnCallShrinks(n, u, now);
      LoseRingsShrinks(own, rings, u, now);
      ShrinksTwice(n.mem, own.mem, n1.mem);
      forall c | c in rings ensures own.mem.Live(c) && own.mem.IsPending(c, u) { assert c in own.mem.RingsFor(u); }
      LoseRingsWalk(own, rings, u, now, failed);
      forall c ensures !n1.mem.Live(c) || !n1.mem.IsPending(c, u) {
        if c !in rings { assert c !in own.mem.RingsFor(u) && SameRecord(own.mem, n1.mem, c); }
      }
    } else {
      ShrinksItself(n.mem);
    }
    OnlineAfter(n, n1, n', u);
    OnlineOnlyShape(n1, n', failed);
  }

  lemma OnlineAfter(n: Node, n1: Node, n': Node, u: UserId)
    requires RungAreOnline(n) && Shrinks(n.mem, n1.mem) && n'.mem == n1.mem
    requires forall w | w != u :: Count(n'.online, w) == Count(n.online, w)
    requires Count(n'.online, u) > 0 || forall c :: !n1.mem.Live(c) || !n1.mem.IsPending(c, u)
    ensures RungAreOnline(n')
  {
  }

  lemma SocketGone(online: map<UserId, set<SocketId>>, u: UserId, s: SocketId)
    requires s in SocketsOf(online, u)
    ensures var after := RemoveSocket(online, u, s);
            && (forall w | w != u :: Count(after, w) == Count(online, w))
            && SocketsOf(after, u) == SocketsOf(online, u) - {s}
            && (Count(online, u) > 1 ==> Count(after, u) > 0)
  {
    assert SocketsOf(RemoveSocket(online, u, s), u) == SocketsOf(online, u) - {s};
  }

  lemma OnlineOnlyShape(n: Node, n': Node, failed: set<CallId>)
    requires Shapes(n, failed) && n'.mem == n.mem && n'.batches == n.batches
    ensures Shapes(n', failed)
  {
    hide VerdictFits, FirstJoin, DirectShape, GroupShape;
    forall c ensures ShapeAt(n', failed, c) { assert ShapeAt(n, failed, c); }
  }

  // ----- the invariant of the whole system ------------------------------------------------------

  ghost predicate Inv(s: Server) {
    && MemInv(s.node.mem)
    && Books(s.node, s.db, s.log)
    && Shapes(s.node, s.log.stranded)
    && RungAreOnline(s.node)
    && Rings(s.node, s.log)
  }

  ghost predicate NodeInv(n: Node, failed: set<CallId>) {
    MemInv(n.mem) && Shapes(n, failed) && RungAreOnline(n)
  }

  lemma TimersKeepNode(n: Node, n': Node, failed: set<CallId>)
    requires NodeInv(n, failed) && OnlyTimers(n.mem, n'.mem) && TimersAgree(n'.mem)
    requires n'.batches == n.batches && n'.online == n.online
    ensures NodeInv(n', failed)
  {
    hide ShapeAt, Verdicts, UsersAgree, TimersAgree, ConversationsAgree, AllCallsOk, Shrinks;
    OnlyTimersKeeps(n.mem, n'.mem);
    TimersKeepShape(n, n', failed);
    TimersShrink(n.mem, n'.mem);
    ShrinksKeeps(n, n');
  }

  lemma ConnectKeepsNode(n: Node, u: UserId, s: SocketId, failed: set<CallId>)
    requires NodeInv(n, failed)
    ensures NodeInv(Connect(n, u, s), failed)
  {
    hide ShapeAt, Verdicts, UsersAgree, ConversationsAgree, AllCallsOk, Shrinks, RungAreOnline;
    var n1 := n.(mem := ClearUserGraceTimers(n.mem, u));
    ClearUserGraceTimersKeeps(n.mem, u);
    ClearIsOnlyTimers(n.mem, u);
    TimersKeepNode(n, n1, failed);
    MoreSockets(n1, Connect(n, u, s), u, s);
    OnlineOnlyShape(n1, Connect(n, u, s), failed);
  }

  lemma ClearIsOnlyTimers(m: Mem, u: UserId)
    ensures OnlyTimers(m, ClearUserGraceTimers(m, u))
  {
    forall c | c in m.calls ensures SameButTimers(m.calls[c], ClearUserGraceTimers(m, u).calls[c]) {}
  }

  lemma MoreSockets(n: Node, n': Node, u: UserId, s: SocketId)
    requires RungAreOnline(n) && n'.mem == n.mem && n'.online == AddSocket(n.online, u, s)
    ensures RungAreOnline(n')
  {
    assert s in SocketsOf(n'.online, u);
    forall w | w != u ensures Count(n'.online, w) == Count(n.online, w) {}
    assert Count(n'.online, u) > 0;
  }

  /** An id no record and no batch knows, asked for by a member whose conversation answers truthfully. */
  ghost predicate InviteFits(n: Node, c: CallId, u: UserId, conv: Conversation, member: bool, members: Option<set<UserId>>) {
    && c !in n.mem.calls && (forall b | b in n.batches :: b.op.call != c)
    && TruthfulMember(conv, u, member) && TruthfulMembers(conv, members)
  }

  lemma InviteKeepsNode(n: Node, c: CallId, u: UserId, conv: Conversation, kind: Kind, member: bool,
                        members: Option<set<UserId>>, blocked: bool, now: int, failed: set<CallId>)
    requires NodeInv(n, failed) && InviteFits(n, c, u, conv, member, members)
    ensures NodeInv(Invite(n, c, u, conv, kind, member, members, blocked, now), failed)
  {
    hide ShapeAt, Verdicts, UsersAgree, TimersAgree, AllCallsOk, Shrinks, Create, RungAreOnline;
    if InviteAnswerOf(n, u, conv, member, members, blocked).Reserved? {
      var rung := OnlineOthers(n, u, members.value);
      CreateKeeps(n.mem, c, conv, kind, u, rung, now);
      CreateKeepsShape(n, c, u, conv, kind, rung, now, failed);
      CreateOnline(n, c, u, conv, kind, rung, now);
    }
  }

  lemma FreshId(s: Server, c: CallId)
    requires Books(s.node, s.db, s.log) && c !in s.log.used
    ensures c !in s.node.mem.calls && forall b | b in s.node.batches :: b.op.call != c
  {
    hide InsertsOnce, FinalizesOnce, BubblesOnce, RowsOwed, PartsOwed, PartsHaveCalls;
  }

  lemma CreateOnline(n: Node, c: CallId, u: UserId, conv: Conversation, kind: Kind, rung: set<UserId>, now: int)
    requires RungAreOnline(n) && c !in n.mem.calls && u !in rung
    requires forall w | w in rung :: Count(n.online, w) > 0
    ensures RungAreOnline(n.(mem := Create(n.mem, c, conv, kind, u, rung, now),
                             batches := n.batches + [Batch(InsertCall(c, conv, kind, u, rung), InFlight)]))
  {
    var m' := Create(n.mem, c, conv, kind, u, rung, now);
    forall d, w | m'.Live(d) && m'.IsPending(d, w) ensures Count(n.online, w) > 0 {
      if d != c { assert n.mem.Live(d) && n.mem.IsPending(d, w); }
    }
  }

  lemma MutationsKeepMem(n: Node, c: CallId, u: UserId, now: int)
    requires MemInv(n.mem)
    ensures MemInv(Reject(n, c, u, now).mem)
    ensures MemInv(Cancel(n, c, u, now).mem)
    ensures c in n.mem.calls ==> MemInv(Depart(n, c, u, now).mem)
  {
    hide MemInv, EndCall;
    MarkRejectedKeeps(n.mem, c, u);
    MarkLeftKeeps(n.mem, c, u);
    var n1 := n.(mem := MarkRejected(n.mem, c, u));
    EndCallKeepsMem(n1, c, Rejected, now);
    EndCallKeepsMem(n1, c, Missed, now);
    EndCallKeepsMem(n, c, Missed, now);
    if c in n.mem.calls {
      var n2 := n.(mem := MarkLeft(n.mem, c, u));
      EndCallKeepsMem(n2, c, Closing(n2.mem.calls[c]), now);
    }
  }

  lemma JoinKeepsNode(n: Node, c: CallId, u: UserId, conv: Conversation, member: bool, now: int, failed: set<CallId>)
    requires NodeInv(n, failed)
    requires c in n.mem.calls ==> n.mem.calls[c].conv == conv
    requires TruthfulMember(conv, u, member)
    ensures NodeInv(Join(n, c, u, member, now), failed)
  {
    hide MemInv, Shapes, RungAreOnline, Shrinks;
    JoinKeepsShape(n, c, u, member, now, failed);
    MarkJoinedShrinks(n.mem, c, u, now);
    ShrinksItself(n.mem);
    ShrinksKeeps(n, Join(n, c, u, member, now));
    if JoinAnswerOf(n, c, u, member).Joined? { MarkJoinedKeeps(n.mem, c, u, now); }
  }

  lemma ControlsKeepNode(n: Node, c: CallId, u: UserId, now: int, failed: set<CallId>)
    requires NodeInv(n, failed)
    ensures NodeInv(Cancel(n, c, u, now), failed)
    ensures NodeInv(Reject(n, c, u, now), failed)
    ensures n.mem.Live(c) && n.mem.IsJoined(c, u) ==> NodeInv(Depart(n, c, u, now), failed)
  {
    hide Shapes, RungAreOnline, Shrinks, EndCall, Reject, Depart, UsersAgree, ConversationsAgree, TimersAgree, AllCallsOk;
    MutationsKeepMem(n, c, u, now);
    CancelKeepsShape(n, c, u, now, failed);
    RejectKeepsShape(n, c, u, now, failed);
    EndCallShrinks(n, c, Missed, now);
    ShrinksItself(n.mem);
    ShrinksKeeps(n, Cancel(n, c, u, now));
    RejectShrinks(n, c, u, now);
    ShrinksKeeps(n, Reject(n, c, u, now));
    if n.mem.Live(c) && n.mem.IsJoined(c, u) {
      DepartKeepsShape(n, c, u, now, failed);
      DepartShrinks(n, c, u, now);
      ShrinksKeeps(n, Depart(n, c, u, now));
    }
  }

  lemma RingExpiresKeepsNode(n: Node, t: Timer, now: int, failed: set<CallId>)
    requires NodeInv(n, failed) && t in n.mem.armed && t.RingTimer?
    ensures NodeInv(RingExpires(n, t, now), failed)
  {
    hide MemInv, Shapes, RungAreOnline, Shrinks, EndCall, Fire, ClearRingTimer;
    RingExpiresKeepsShape(n, t, now, failed);
    var m1 := ClearRingTimer(n.mem.(armed := n.mem.armed - {t}), t.call);
    RingFired(n, t);
    var n1 := n.(mem := m1);
    TimersKeepNode(n, n1, failed);
    EndCallShrinks(n1, t.call, Missed, now);
    ShrinksKeeps(n1, EndCall(n1, t.call, Missed, now));
    EndCallKeepsMem(n1, t.call, Missed, now);
    RingExpiresIs(n, t, now);
  }

  lemma RingFired(n: Node, t: Timer)
    requires MemInv(n.mem) && t in n.mem.armed && t.RingTimer?
    ensures var m1 := ClearRingTimer(n.mem.(armed := n.mem.armed - {t}), t.call);
            OnlyTimers(n.mem, m1) && TimersAgree(m1)
  {
    RingFiresTimers(n.mem, t);
  }

  lemma RingExpiresIs(n: Node, t: Timer, now: int)
    requires t.RingTimer?
    ensures var n1 := n.(mem := ClearRingTimer(n.mem.(armed := n.mem.armed - {t}), t.call));
            RingExpires(n, t, now) == n1 || RingExpires(n, t, now) == EndCall(n1, t.call, Missed, now)
  {
  }

  lemma GraceExpiresKeepsNode(n: Node, t: Timer, now: int, failed: set<CallId>)
    requires NodeInv(n, failed) && t in n.mem.armed && t.GraceTimer?
    ensures NodeInv(GraceExpires(n, t, now), failed)
  {
    hide UsersAgree, ConversationsAgree, AllCallsOk, Shapes, RungAreOnline, Depart, ClearGraceTimer;
    var m1 := ClearGraceTimer(n.mem.(armed := n.mem.armed - {t}), t.call, t.user);
    GraceFiresTimers(n.mem, t);
    var n1 := n.(mem := m1);
    TimersKeepNode(n, n1, failed);
    ControlsKeepNode(n1, t.call, t.user, now, failed);
  }

  /** What the books say of an answered batch: an invite still live has no ring timer yet. */
  predicate GoOnFits(n: Node, i: nat) {
    && IsAnswered(n, i)
    && (n.batches[i].op.InsertCall? && n.mem.Live(n.batches[i].op.call) ==> n.mem.calls[n.batches[i].op.call].ringTimer.None?)
  }

  lemma GoOnKeepsNode(n: Node, i: nat, failed: set<CallId>, failed': set<CallId>)
    requires NodeInv(n, failed) && GoOnFits(n, i) && failed <= failed'
    requires RollbackStrands(n, i) ==> n.batches[i].op.call in failed'
    ensures NodeInv(GoOn(n, i), failed')
  {
    hide MemInv, Shapes, RungAreOnline, Shrinks, GoOn, RollbackStrands;
    assert n.batches[i] in n.batches;
    assert TimersAgree(n.mem) by { TimersOf(n.mem); }
    GoOnKeepsShape(n, i, failed, failed');
    GoOnShrinks(n, i);
    ShrinksKeeps(n, GoOn(n, i));
  }

  lemma TimersOf(m: Mem)
    requires MemInv(m)
    ensures TimersAgree(m)
  {
  }

  lemma ReadyToGoOn(s: Server, i: nat)
    requires Books(s.node, s.db, s.log) && IsAnswered(s.node, i)
    ensures GoOnFits(s.node, i)
  {
    hide FinalizesOnce, BubblesOnce, RowsOwed, PartsOwed, PartsHaveCalls, IdsUsed;
    assert s.node.batches[i] in s.node.batches;
  }

  lemma SweepKeepsNode(n: Node, c: CallId, now: int, failed: set<CallId>)
    requires NodeInv(n, failed)
    ensures NodeInv(SweepOne(n, c, now), failed)
  {
    hide MemInv, Shapes, RungAreOnline, Shrinks, Remove;
    if Stuck(n.mem, c, now) {
      RemoveKeeps(n.mem, c);
      RemoveKeepsShape(n, c, failed);
      var n1 := n.(mem := Remove(n.mem, c));
      StampKeepsShape(n1, StampSwept(c), failed);
      LifecycleShrinks(n.mem, c);
      ShrinksKeeps(n, SweepOne(n, c, now));
    }
  }

  lemma KickKeepsNode(n: Node, conv: Conversation, users: seq<UserId>, now: int, failed: set<CallId>)
    requires NodeInv(n, failed)
    ensures NodeInv(Kick(n, conv, users, now), failed)
  {
    hide MemInv, Shapes, RungAreOnline, Shrinks, Kick;
    KickKeepsShape(n, conv, users, now, failed);
    KickShrinks(n, conv, users, now);
    ShrinksKeeps(n, Kick(n, conv, users, now));
  }

  lemma PhaseKeepsNode(n: Node, i: nat, phase: Phase, failed: set<CallId>)
    requires NodeInv(n, failed) && i < |n.batches|
    requires n.batches[i].phase.InFlight? && !phase.InFlight?
    ensures NodeInv(Answered(n, i, phase), failed)
  {
    hide MemInv, Shapes, Shrinks, RungAreOnline;
    PhaseKeepsShape(n, i, phase, failed, failed);
    ShrinksItself(n.mem);
    ShrinksKeeps(n, Answered(n, i, phase));
  }

  lemma BlameStrandsNothing(s: Server, op: Op)
    ensures Blame(s, op).stranded == s.log.stranded
  {
  }

  lemma RolledStrands(log: Log, n: Node, i: nat)
    requires i < |n.batches|
    ensures log.stranded <= Rolled(log, n, i).stranded
    ensures RollbackStrands(n, i) ==> n.batches[i].op.call in Rolled(log, n, i).stranded
  {
    hide RollbackStrands, RollbackUntimes;
  }

  lemma StepKeepsNode(s: Server, step: Step)
    requires Inv(s) && Enabled(s, step)
    ensures NodeInv(Next(s, step).node, Next(s, step).log.stranded)
  {
    hide MemInv, Shapes, RungAreOnline, Books, Reject, Kick, RingExpires, GraceExpires, Depart, Disconnect, Connect, GoOn,
      SweepOne, EndCall, Execute, Answered, Blame, Rolled, Join, Invite, GoOnFits, RollbackStrands;
    var n, failed := s.node, s.log.stranded;
    match step
    case Connects(u, k) => ConnectKeepsNode(n, u, k, failed);
    case Disconnects(u, k, rings, now) => DisconnectKeepsOnline(n, u, k, rings, now, failed);
    case Invites(c, u, conv, kind, member, members, blocked, now) =>
      FreshId(s, c);
      InviteKeepsNode(n, c, u, conv, kind, member, members, blocked, now, failed);
    case Joins(c, u, conv, member, now) => JoinKeepsNode(n, c, u, conv, member, now, failed);
    case Cancels(c, u, now) => ControlsKeepNode(n, c, u, now, failed);
    case Rejects(c, u, now) => ControlsKeepNode(n, c, u, now, failed);
    case Leaves(c, u, now) => ControlsKeepNode(n, c, u, now, failed);
    case Kicks(conv, users, now) => KickKeepsNode(n, conv, users, now, failed);
    case RingTimesOut(t, now) => RingExpiresKeepsNode(n, t, now, failed);
    case GraceTimesOut(t, now) => GraceExpiresKeepsNode(n, t, now, failed);
    case BatchCommits(i, now) => PhaseKeepsNode(n, i, Committed, failed);
    case BatchFails(i) =>
      BlameStrandsNothing(s, n.batches[i].op);
      PhaseKeepsNode(n, i, Failed, failed);
    case HandlerGoesOn(i) =>
      ReadyToGoOn(s, i);
      RolledStrands(s.log, n, i);
      GoOnKeepsNode(n, i, failed, Rolled(s.log, n, i).stranded);
    case SweeperFires(c, now) => SweepKeepsNode(n, c, now, failed);
  }

  lemma StepKeepsInv(s: Server, step: Step)
    requires Inv(s) && Enabled(s, step)
    ensures Inv(Next(s, step))
  {
    hide MemInv, Shapes, RungAreOnline, Books, Next, RingAt;
    StepKeepsNode(s, step);
    StepKeepsBooks(s, step);
    CallsAreUsed(s);
    forall c ensures RingAt(Next(s, step).node, Next(s, step).log, c) { StepKeepsRing(s, step, c); }
  }

  lemma CallsAreUsed(s: Server)
    requires Books(s.node, s.db, s.log)
    ensures s.node.mem.calls.Keys <= s.log.used
  {
    hide InsertsOnce, FinalizesOnce, BubblesOnce, RowsOwed, PartsOwed, PartsHaveCalls;
  }

  lemma InitialInv()
    ensures Inv(INITIAL)
  {
  }

  lemma {:induction false} RunKeepsInv(steps: seq<Step>)
    ensures After(steps).Some? ==> Inv(After(steps).value)
  {
    hide Inv, Next, Enabled;
    if steps == [] {
      InitialInv();
    } else {
      RunKeepsInv(steps[..|steps|-1]);
      match After(steps[..|steps|-1])
      case None =>
      case Some(s) => if Enabled(s, steps[|steps|-1]) { StepKeepsInv(s, steps[|steps|-1]); }
    }
  }

  lemma ReachableInv(s: Server)
    requires Reachable(s)
    ensures Inv(s)
  {
    var steps :| After(steps) == Some(s);
    RunKeepsInv(steps);
  }
}
