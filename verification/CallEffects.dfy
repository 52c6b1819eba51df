/** What each thing a user, a timer or a lost socket does to a call, told by who is in it and who is still rung. */
module CallEffects {
  import opened Common
  import opened CallModel
  import opened CallSegments
  import opened CallProtocol
  import opened CallMemory
  import opened CallShape
  import opened CallBooks
  import opened CallSteps
  import opened CallRings
  import opened CallTheorems

  // ----- how to tell it ----------------------------------------------------------------------

  ghost predicate OthersStay(n: Node, n': Node, c: CallId) { forall d | d != c :: SameRecord(n.mem, n'.mem, d) }

  /** One batch more, in flight. */
  predicate Sent(n: Node, n': Node, op: Op) { n'.batches == n.batches + [Batch(op, InFlight)] }

  /** The call is over: one batch was sent, its finalizer, with that verdict; and no other call is touched. */
  ghost predicate Ends(n: Node, n': Node, c: CallId, verdict: Verdict, now: int) {
    && n.mem.Live(c) && !n'.mem.Live(c) && OthersStay(n, n', c)
    && |n'.batches| == |n.batches| + 1 && n'.batches[..|n.batches|] == n.batches
    && Finishes(n, n'.batches[|n.batches|], c, verdict, now)
  }

  predicate Finishes(n: Node, b: Batch, c: CallId, verdict: Verdict, now: int)
    requires c in n.mem.calls
  {
    && b.phase.InFlight? && b.op.Finalize? && b.op.call == c && b.op.verdict == verdict && Says(n.mem.calls[c], b.op, now)
  }

  /** The call goes on with these people in it and these still rung; no other call is touched. */
  ghost predicate GoesOnWith(n: Node, n': Node, c: CallId, joined: set<UserId>, pending: set<UserId>) {
    && n.mem.Live(c) && n'.mem.Live(c) && OthersStay(n, n', c) && SameTalk(n.mem, n'.mem, c)
    && n'.mem.calls[c].JoinedSet() == joined && n'.mem.calls[c].PendingSet() == pending
  }

  /** Who is in which call, who is rung and what was sent is as it was. */
  ghost predicate NobodyMoved(n: Node, n': Node) {
    && n'.batches == n.batches && n'.mem.calls.Keys == n.mem.calls.Keys
    && forall d | d in n.mem.calls ::
         && (n'.mem.Live(d) <==> n.mem.Live(d)) && SameTalk(n.mem, n'.mem, d)
         && n'.mem.calls[d].JoinedSet() == n.mem.calls[d].JoinedSet()
         && n'.mem.calls[d].PendingSet() == n.mem.calls[d].PendingSet()
  }

  /** MISSED while nobody answered, ENDED afterwards. */
  function Outcome(call: Call): Verdict { match call.status case Ringing => Missed case Ongoing => Ended }

  lemma EndCallEnds(n: Node, c: CallId, verdict: Verdict, now: int)
    requires n.mem.Live(c)
    ensures Ends(n, EndCall(n, c, verdict, now), c, verdict, now)
    ensures var n' := EndCall(n, c, verdict, now);
            && n'.mem.byUser == n.mem.byUser && n'.online == n.online
            && c in n'.mem.calls && n'.mem.calls[c].people == n.mem.calls[c].people
  {
    FinalSays(c, n.mem.calls[c], verdict, now);
    hide Says, TalkSeconds;
  }

  /** Ending a call somebody just left or was taken from is ending it. */
  lemma EndsAfter(n: Node, n1: Node, n': Node, c: CallId, verdict: Verdict, now: int)
    requires n.mem.Live(c) && n1.batches == n.batches && OthersStay(n, n1, c) && SameTalk(n.mem, n1.mem, c)
    requires Ends(n1, n', c, verdict, now)
    ensures Ends(n, n', c, verdict, now)
  {
    forall d | d != c ensures SameRecord(n.mem, n'.mem, d) { assert SameRecord(n.mem, n1.mem, d) && SameRecord(n1.mem, n'.mem, d); }
    hide SameRecord;
  }

  // ----- cancel, reject, leave ---------------------------------------------------------------

  /** A cancel ends a ringing call for its starter as MISSED, and does nothing else. */
  lemma CancelEnds(s: Server, c: CallId, u: UserId, now: int)
    ensures var s' := Next(s, Cancels(c, u, now));
            && s' == s.(node := s'.node)
            && if RingsOn(s.node.mem, c) && s.node.mem.calls[c].startedBy == u
               then Ends(s.node, s'.node, c, Missed, now) else s' == s
  {
    hide Ends, EndCall;
    if RingsOn(s.node.mem, c) { EndCallEnds(s.node, c, Missed, now); }
  }

  /** Who is rung no more, declining or gone. */
  lemma RingLost(m: Mem, m': Mem, c: CallId, u: UserId)
    requires c in m.calls && u in m.calls[c].PendingSet() && (m' == MarkRejected(m, c, u) || m' == MarkRungGone(m, c, u))
    ensures c in m'.calls && m'.calls[c].JoinedSet() == m.calls[c].JoinedSet()
    ensures m'.calls[c].PendingSet() == m.calls[c].PendingSet() - {u}
    ensures SameTalk(m, m', c) && (m'.Live(c) <==> m.Live(c)) && forall d | d != c :: SameRecord(m, m', d)
  {
    assert m'.calls[c].JoinedSet() == m.calls[c].JoinedSet();
    assert m'.calls[c].PendingSet() == m.calls[c].PendingSet() - {u};
  }

  /**
   Somebody rung declines: a DM ends as REJECTED, a group that still rings ends as MISSED
   when nobody else is left to answer, and goes on without the ring otherwise.
   */
  lemma RejectDeclines(s: Server, c: CallId, u: UserId, now: int)
    ensures var s' := Next(s, Rejects(c, u, now));
            var (n, n') := (s.node, s'.node);
            && s' == s.(node := n')
            && if n.mem.Live(c) && u in n.mem.calls[c].PendingSet() then
                 var call := n.mem.calls[c];
                 if call.conv.Direct? then Ends(n, n', c, Rejected, now)
                 else if call.status.Ringing? && call.PendingSet() == {u} then Ends(n, n', c, Missed, now)
                 else n'.batches == n.batches && GoesOnWith(n, n', c, call.JoinedSet(), call.PendingSet() - {u})
               else n' == n
  {
    hide Ends, EndCall, MarkRejected, Call.JoinedSet;
    var n := s.node;
    if n.mem.Live(c) && n.mem.IsPending(c, u) {
      var n1 := n.(mem := MarkRejected(n.mem, c, u));
      RingLost(n.mem, n1.mem, c, u);
      forall verdict: Verdict ensures Ends(n, EndCall(n1, c, verdict, now), c, verdict, now) {
        EndCallEnds(n1, c, verdict, now);
        EndsAfter(n, n1, EndCall(n1, c, verdict, now), c, verdict, now);
      }
    }
  }

  /** A DM ends when one of its two is gone, a group when its last is. */
  ghost predicate Departs(n: Node, n': Node, c: CallId, u: UserId, now: int)
    requires c in n.mem.calls
  {
    var call := n.mem.calls[c];
    && u !in n'.mem.byUser
    && if call.conv.Direct? || call.JoinedSet() == {u} then Ends(n, n', c, Outcome(call), now)
       else Sent(n, n', StampLeft(c, {u})) && GoesOnWith(n, n', c, call.JoinedSet() - {u}, call.PendingSet())
  }

  lemma LeftKeepsRings(m: Mem, c: CallId, u: UserId)
    requires m.IsJoined(c, u)
    ensures MarkLeft(m, c, u).calls[c].PendingSet() == m.calls[c].PendingSet()
    ensures SameTalk(m, MarkLeft(m, c, u), c)
  {
    assert MarkLeft(m, c, u).calls[c].PendingSet() == m.calls[c].PendingSet();
  }

  lemma DepartDeparts(n: Node, c: CallId, u: UserId, now: int, failed: set<CallId>)
    requires UsersAgree(n.mem) && Shapes(n, failed) && n.mem.Live(c) && n.mem.IsJoined(c, u)
    ensures Departs(n, Depart(n, c, u, now), c, u, now)
  {
    hide MarkLeft, EndCall, Ends, UsersAgree, DirectShape, GroupShape, JoinsFit, SameTalk;
    var n1 := n.(mem := MarkLeft(n.mem, c, u));
    assert ShapeAt(n, failed, c);
    MarkLeftRecord(n.mem, c, u);
    MarkLeftOthers(n.mem, c, u);
    MarkLeftRelation(n.mem, c, u);
    LeftKeepsRings(n.mem, c, u);
    LeaverIsFree(n.mem, c, u);
    EndCallEnds(n1, c, Closing(n1.mem.calls[c]), now);
    if n1.mem.calls[c].JoinedSet() != {} { SubsetCard({}, n1.mem.calls[c].JoinedSet()); }
    if EndsWithoutUser(n1.mem.calls[c], |n1.mem.calls[c].JoinedSet()|) {
      EndsAfter(n, n1, EndCall(n1, c, Closing(n1.mem.calls[c]), now), c, Closing(n1.mem.calls[c]), now);
    }
  }

  lemma LeaverIsFree(m: Mem, c: CallId, u: UserId)
    requires UsersAgree(m) && m.IsJoined(c, u)
    ensures u !in MarkLeft(m, c, u).byUser
  {
  }

  /** A joined user leaves: the call ends if it cannot go on, and their row is stamped otherwise. */
  lemma LeaveDeparts(s: Server, c: CallId, u: UserId, now: int)
    requires Reachable(s)
    ensures var s' := Next(s, Leaves(c, u, now));
            && s' == s.(node := s'.node)
            && if s.node.mem.Live(c) && s.node.mem.IsJoined(c, u) then Departs(s.node, s'.node, c, u, now) else s' == s
  {
    hide Departs, Depart;
    if s.node.mem.Live(c) && s.node.mem.IsJoined(c, u) {
      UsersAndShapes(s);
      DepartDeparts(s.node, c, u, now, s.log.stranded);
    }
  }

  lemma UsersAndShapes(s: Server)
    requires Reachable(s)
    ensures MemInv(s.node.mem) && UsersAgree(s.node.mem) && ConversationsAgree(s.node.mem)
    ensures Shapes(s.node, s.log.stranded)
  {
    hide Books, RungAreOnline, Rings, Shapes;
    ReachableInv(s);
  }

  // ----- kick ------------------------------------------------------------------------------------

  function Elements(users: seq<UserId>): set<UserId> { set u | u in users }

  /** The last one in it was taken out, or the last one it rang. */
  predicate KickEnds(call: Call, users: set<UserId>) {
    || (call.JoinedSet() * users != {} && (call.conv.Direct? || call.JoinedSet() <= users))
    || (call.PendingSet() * users != {} && call.status.Ringing? && call.PendingSet() <= users)
  }

  /** What the loop over the removed users has come to, whatever their order and however often each is named. */
  ghost predicate Kicked(k: KickState, k': KickState, c: CallId, users: set<UserId>)
    requires c in k.mem.calls
  {
    var call := k.mem.calls[c];
    && LeftWith(k.mem, k'.mem, c, call.JoinedSet() - users, call.PendingSet() - users)
    && k'.left == k.left + call.JoinedSet() * users
    && (k'.ends <==> k.ends || KickEnds(call, users))
  }

  /** Only who is in the call and who is rung has changed. */
  ghost predicate LeftWith(m: Mem, m': Mem, c: CallId, joined: set<UserId>, pending: set<UserId>) {
    && c in m.calls && c in m'.calls && m'.calls[c].JoinedSet() == joined && m'.calls[c].PendingSet() == pending
    && SameTalk(m, m', c) && (m'.Live(c) <==> m.Live(c)) && forall d | d != c :: SameRecord(m, m', d)
  }

  lemma LeftWithTwice(m: Mem, m1: Mem, m2: Mem, c: CallId, j1: set<UserId>, p1: set<UserId>, j2: set<UserId>, p2: set<UserId>)
    requires LeftWith(m, m1, c, j1, p1) && LeftWith(m1, m2, c, j2, p2)
    ensures LeftWith(m, m2, c, j2, p2)
  {
    forall d | d != c ensures SameRecord(m, m2, d) { assert SameRecord(m, m1, d) && SameRecord(m1, m2, d); }
  }

  lemma {:induction false} KickAllKicks(k: KickState, c: CallId, users: seq<UserId>)
    requires c in k.mem.calls && (k.mem.calls[c].conv.Direct? ==> |k.mem.calls[c].JoinedSet()| <= 2)
    ensures Kicked(k, KickAll(k, c, users), c, Elements(users))
  {
    if users == [] {
      hide Call.JoinedSet, Call.PendingSet;
      assert Elements(users) == {};
    } else {
      hide KickOne, Kicked, Call.JoinedSet;
      var (front, u) := (users[..|users|-1], users[|users|-1]);
      assert users == front + [u];
      assert Elements(users) == Elements(front) + {u};
      KickAllKicks(k, c, front);
      OneMoreKick(k, KickAll(k, c, front), c, Elements(front), u);
    }
  }

  lemma OneMoreKick(k: KickState, k1: KickState, c: CallId, users: set<UserId>, u: UserId)
    requires c in k.mem.calls && Kicked(k, k1, c, users)
    requires k.mem.calls[c].conv.Direct? ==> |k.mem.calls[c].JoinedSet()| <= 2
    ensures Kicked(k, KickOne(k1, c, u), c, users + {u})
  {
    hide KickOne, Call.JoinedSet, Call.PendingSet, LeftWith;
    var (call, k2) := (k.mem.calls[c], KickOne(k1, c, u));
    assert c in k1.mem.calls by { LeftWithIs(k.mem, k1.mem, c, call.JoinedSet() - users, call.PendingSet() - users); }
    LeftWithIs(k.mem, k1.mem, c, call.JoinedSet() - users, call.PendingSet() - users);
    PeopleAreEither(call, u);
    KickOneKicks(k1, c, u);
    LeftWithTwice(k.mem, k1.mem, k2.mem, c, call.JoinedSet() - users, call.PendingSet() - users,
                  call.JoinedSet() - users - {u}, call.PendingSet() - users - {u});
    assert call.JoinedSet() - users - {u} == call.JoinedSet() - (users + {u});
    assert call.PendingSet() - users - {u} == call.PendingSet() - (users + {u});
    OneMoreLeft(call.JoinedSet(), users, u);
    OneMoreEnds(call, users, u);
  }

  lemma LeftWithIs(m: Mem, m': Mem, c: CallId, joined: set<UserId>, pending: set<UserId>)
    requires LeftWith(m, m', c, joined, pending)
    ensures c in m'.calls && m'.calls[c].JoinedSet() == joined && m'.calls[c].PendingSet() == pending
    ensures m'.calls[c].conv == m.calls[c].conv && m'.calls[c].status == m.calls[c].status
  {
  }

  lemma KickOneKicks(k: KickState, c: CallId, u: UserId)
    requires c in k.mem.calls
    ensures var (call, k') := (k.mem.calls[c], KickOne(k, c, u));
            && LeftWith(k.mem, k'.mem, c, call.JoinedSet() - {u}, call.PendingSet() - {u})
            && k'.left == (if u in call.JoinedSet() then k.left + {u} else k.left)
            && (k'.ends <==> || k.ends
                             || (u in call.JoinedSet() && EndsWithoutUser(call, |call.JoinedSet() - {u}|))
                             || (u in call.PendingSet() && call.status.Ringing? && call.PendingSet() == {u}))
  {
    hide MarkLeft, MarkRungGone, Call.JoinedSet, Call.PendingSet, SameTalk, SameRecord;
    var (call, k') := (k.mem.calls[c], KickOne(k, c, u));
    PeopleAreEither(call, u);
    if u in call.JoinedSet() {
      MarkLeftRelation(k.mem, c, u);
      MarkLeftOthers(k.mem, c, u);
      LeftKeepsRings(k.mem, c, u);
      assert call.PendingSet() - {u} == call.PendingSet();
    } else if u in call.PendingSet() {
      RingLost(k.mem, k'.mem, c, u);
      assert call.JoinedSet() - {u} == call.JoinedSet();
    } else {
      assert call.JoinedSet() - {u} == call.JoinedSet() && call.PendingSet() - {u} == call.PendingSet();
      SameIsSame(k.mem, c);
    }
  }

  lemma SameIsSame(m: Mem, c: CallId)
    ensures SameTalk(m, m, c) && forall d :: SameRecord(m, m, d)
  {
  }

  lemma PeopleAreEither(call: Call, u: UserId)
    ensures !(u in call.JoinedSet() && u in call.PendingSet())
    ensures u in call.JoinedSet() <==> u in call.people && call.people[u].Joined()
    ensures u in call.PendingSet() <==> u in call.people && call.people[u].Pending()
  {
  }

  lemma OneMoreLeft(all: set<UserId>, users: set<UserId>, u: UserId)
    ensures all * (users + {u}) == if u in all - users then all * users + {u} else all * users
  {
  }

  /** With one user more the call ends exactly if it did before, or this was the last one. */
  lemma OneMoreEnds(call: Call, users: set<UserId>, u: UserId)
    requires call.conv.Direct? ==> |call.JoinedSet()| <= 2
    ensures var (joined, pending) := (call.JoinedSet() - users, call.PendingSet() - users);
            KickEnds(call, users + {u}) <==>
              || KickEnds(call, users)
              || (u in joined && EndsWithoutUser(call, |joined - {u}|))
              || (u in pending && call.status.Ringing? && pending == {u})
  {
    hide Call.JoinedSet, Call.PendingSet;
    LastOneOut(call.JoinedSet(), users, u);
    LastOneOut(call.PendingSet(), users, u);
  }

  lemma LastOneOut(all: set<UserId>, users: set<UserId>, u: UserId)
    ensures all * (users + {u}) != {} <==> all * users != {} || u in all - users
    ensures u in all - users ==> (all <= users + {u} <==> |all - users - {u}| == 0) && !(all <= users)
    ensures u in all - users ==> (all <= users + {u} <==> all - users == {u})
    ensures u !in all - users ==> (all <= users + {u} <==> all <= users)
    ensures u in all - users ==> |all - users - {u}| < |all|
  {
    if u in all - users {
      assert u in all * (users + {u});
      SubsetCard(all - users - {u}, all - {u});
      assert |all - {u}| == |all| - 1;
      if all <= users + {u} { assert all - users - {u} == {}; }
      if |all - users - {u}| == 0 { assert all - users - {u} == {}; forall w | w in all ensures w in users + {u} { assert w !in all - users - {u}; } }
    } else {
      assert all * (users + {u}) == all * users;
    }
  }

  /** All of them are out of the call, joined or rung; it ends if that took the last one, and who left is stamped otherwise. */
  ghost predicate TakenOut(n: Node, n': Node, c: CallId, gone: set<UserId>, now: int)
    requires c in n.mem.calls
  {
    var call := n.mem.calls[c];
    && (forall u | u in gone :: !n'.mem.IsJoined(c, u) && !n'.mem.IsPending(c, u))
    && if KickEnds(call, gone) then Ends(n, n', c, Outcome(call), now)
       else && GoesOnWith(n, n', c, call.JoinedSet() - gone, call.PendingSet() - gone)
            && if call.JoinedSet() * gone == {} then n'.batches == n.batches
               else Sent(n, n', StampLeft(c, call.JoinedSet() * gone))
  }

  /**
   Members removed from a group are out of its call all at once; without a live call of
   theirs nothing happens.
   */
  lemma KickTakesOut(s: Server, conv: Conversation, users: seq<UserId>, now: int)
    requires Reachable(s)
    ensures var s' := Next(s, Kicks(conv, users, now)); s' == s.(node := s'.node)
    ensures forall c | s.node.mem.Live(c) && s.node.mem.calls[c].conv == conv ::
              TakenOut(s.node, Next(s, Kicks(conv, users, now)).node, c, Elements(users), now)
    ensures (forall c | s.node.mem.Live(c) :: s.node.mem.calls[c].conv != conv) ==> Next(s, Kicks(conv, users, now)) == s
  {
    hide Kick, TakenOut, Reachable, Shapes, MemInv, UsersAgree, ConversationsAgree;
    UsersAndShapes(s);
    var n := s.node;
    forall c | n.mem.Live(c) && n.mem.calls[c].conv == conv ensures TakenOut(n, Kick(n, conv, users, now), c, Elements(users), now) {
      KickOfCall(n, c, conv, users, now, s.log.stranded);
    }
    if forall c | n.mem.Live(c) :: n.mem.calls[c].conv != conv { KickOfNone(n, conv, users, now); }
  }

  lemma KickOfNone(n: Node, conv: Conversation, users: seq<UserId>, now: int)
    requires ConversationsAgree(n.mem) && forall c | n.mem.Live(c) :: n.mem.calls[c].conv != conv
    ensures Kick(n, conv, users, now) == n
  {
    assert conv in n.mem.byConversation ==> n.mem.calls[n.mem.byConversation[conv]].conv == conv;
  }

  lemma KickOfCall(n: Node, c: CallId, conv: Conversation, users: seq<UserId>, now: int, failed: set<CallId>)
    requires Shapes(n, failed) && ConversationsAgree(n.mem) && n.mem.Live(c) && n.mem.calls[c].conv == conv
    ensures TakenOut(n, Kick(n, conv, users, now), c, Elements(users), now)
  {
    hide KickAll, EndCall, Ends, Elements, KickEnds, DirectShape, GroupShape, Call.JoinedSet, Call.PendingSet, SameRecord;
    var (k0, call, gone) := (KickState(n.mem, {}, false), n.mem.calls[c], Elements(users));
    var k := KickAll(k0, c, users);
    var n1 := n.(mem := k.mem);
    assert ShapeAt(n, failed, c);
    DirectHasTwo(call);
    KickAllKicks(k0, c, users);
    var n' := Kick(n, conv, users, now);
    if KickEnds(call, gone) {
      EndCallEnds(n1, c, Closing(k.mem.calls[c]), now);
      EndsAfter(n, n1, n', c, Outcome(call), now);
    }
    assert k.left == call.JoinedSet() * gone;
    assert k.ends <==> KickEnds(call, gone);
    assert n'.mem.calls[c].people == k.mem.calls[c].people;
    if !KickEnds(call, gone) {
      assert n'.mem == k.mem;
      assert GoesOnWith(n, n', c, call.JoinedSet() - gone, call.PendingSet() - gone);
    }
    forall u | u in gone ensures !n'.mem.IsJoined(c, u) && !n'.mem.IsPending(c, u) { PeopleAreEither(k.mem.calls[c], u); }
  }

  lemma DirectHasTwo(call: Call)
    requires DirectShape(call)
    ensures call.conv.Direct? ==> |call.JoinedSet()| <= 2
  {
    if call.conv.Direct? { Sizes(call.conv.a, call.conv.b); }
  }

  // ----- timers --------------------------------------------------------------------------------

  /** A ring timer that fires ends the call as MISSED if it still rings, and only forgets itself otherwise. */
  lemma RingTimeoutMisses(s: Server, t: Timer, now: int)
    requires Enabled(s, RingTimesOut(t, now))
    ensures var s' := Next(s, RingTimesOut(t, now));
            && s' == s.(node := s'.node)
            && t !in s'.node.mem.armed
            && if RingsOn(s.node.mem, t.call) then Ends(s.node, s'.node, t.call, Missed, now) else NobodyMoved(s.node, s'.node)
  {
    hide Ends, EndCall, NobodyMoved;
    var n := s.node;
    var n1 := n.(mem := ClearRingTimer(Fire(n, t).mem, t.call));
    RingTimerForgotten(n, t);
    if RingsOn(n.mem, t.call) {
      EndCallEnds(n1, t.call, Missed, now);
      EndsAfter(n, n1, EndCall(n1, t.call, Missed, now), t.call, Missed, now);
      EndCallArms(n1, t.call, Missed, now);
    }
  }

  lemma EndCallArms(n: Node, c: CallId, verdict: Verdict, now: int)
    ensures EndCall(n, c, verdict, now).mem.armed == n.mem.armed && EndCall(n, c, verdict, now).mem.issued == n.mem.issued
  {
    hide TalkSeconds;
  }

  lemma RingTimerForgotten(n: Node, t: Timer)
    ensures var n1 := n.(mem := ClearRingTimer(Fire(n, t).mem, t.call));
            && t !in n1.mem.armed && NobodyMoved(n, n1)
            && OthersStay(n, n1, t.call) && SameTalk(n.mem, n1.mem, t.call) && (n1.mem.Live(t.call) <==> n.mem.Live(t.call))
  {
    var n1 := n.(mem := ClearRingTimer(Fire(n, t).mem, t.call));
    forall d | d in n.mem.calls ensures n1.mem.calls[d].people == n.mem.calls[d].people {}
    forall d | d in n.mem.calls ensures n1.mem.calls[d].JoinedSet() == n.mem.calls[d].JoinedSet()
      && n1.mem.calls[d].PendingSet() == n.mem.calls[d].PendingSet() {}
  }

  /** A grace that runs out leaves for the user if they are still offline and still in the call, and only forgets itself otherwise. */
  lemma GraceTimeoutDeparts(s: Server, t: Timer, now: int)
    requires Reachable(s) && Enabled(s, GraceTimesOut(t, now))
    ensures var s' := Next(s, GraceTimesOut(t, now));
            && s' == s.(node := s'.node)
            && t !in s'.node.mem.armed
            && if s.node.mem.Live(t.call) && SocketsOf(s.node.online, t.user) == {} then Departs(s.node, s'.node, t.call, t.user, now)
               else NobodyMoved(s.node, s'.node)
  {
    hide Departs, Depart, NobodyMoved;
    UsersAndShapes(s);
    var n := s.node;
    GraceGuards(n.mem, t);
    var n1 := n.(mem := ClearGraceTimer(Fire(n, t).mem, t.call, t.user));
    GraceTimerForgotten(n, t);
    GraceFiresTimers(n.mem, t);
    OnlyTimersKeeps(n.mem, n1.mem);
    TimersKeepShape(n, n1, s.log.stranded);
    if n.mem.Live(t.call) && Count(n.online, t.user) == 0 {
      UsersOf(n1.mem);
      DepartDeparts(n1, t.call, t.user, now, s.log.stranded);
      DepartsAfter(n, n1, Depart(n1, t.call, t.user, now), t.call, t.user, now);
      DepartArms(n1, t.call, t.user, now);
    }
  }

  lemma UsersOf(m: Mem)
    requires MemInv(m)
    ensures UsersAgree(m) && TimersAgree(m)
  {
  }

  lemma GraceGuards(m: Mem, t: Timer)
    requires MemInv(m) && t in m.armed && t.GraceTimer?
    ensures m.IsJoined(t.call, t.user)
  {
  }

  lemma DepartArms(n: Node, c: CallId, u: UserId, now: int)
    requires c in n.mem.calls
    ensures Depart(n, c, u, now).mem.armed <= n.mem.armed
  {
    hide EndCall, Closing, EndsWithoutUser, Call.JoinedSet;
    var n1 := n.(mem := MarkLeft(n.mem, c, u));
    EndCallArms(n1, c, Closing(n1.mem.calls[c]), now);
  }

  lemma GraceTimerForgotten(n: Node, t: Timer)
    requires t.GraceTimer?
    ensures var n1 := n.(mem := ClearGraceTimer(Fire(n, t).mem, t.call, t.user));
            && t !in n1.mem.armed && NobodyMoved(n, n1) && OthersStay(n, n1, t.call)
            && forall u :: n1.mem.IsJoined(t.call, u) <==> n.mem.IsJoined(t.call, u)
  {
    var n1 := n.(mem := ClearGraceTimer(Fire(n, t).mem, t.call, t.user));
    forall d | d in n.mem.calls ensures n1.mem.calls[d].JoinedSet() == n.mem.calls[d].JoinedSet()
      && n1.mem.calls[d].PendingSet() == n.mem.calls[d].PendingSet() {}
  }

  lemma DepartsAfter(n: Node, n1: Node, n': Node, c: CallId, u: UserId, now: int)
    requires n.mem.Live(c) && NobodyMoved(n, n1) && OthersStay(n, n1, c) && Departs(n1, n', c, u, now)
    ensures Departs(n, n', c, u, now)
  {
    hide Ends, SameRecord, Call.JoinedSet, Call.PendingSet;
    if Ends(n1, n', c, Outcome(n1.mem.calls[c]), now) { EndsAfter(n, n1, n', c, Outcome(n1.mem.calls[c]), now); }
    if n'.mem.Live(c) { SameRecordTwice(n.mem, n1.mem, n'.mem, c); }
  }

  lemma SameRecordTwice(m: Mem, m1: Mem, m2: Mem, c: CallId)
    requires (forall d | d != c :: SameRecord(m, m1, d))
    ensures (forall d | d != c :: SameRecord(m1, m2, d)) ==> forall d | d != c :: SameRecord(m, m2, d)
  {
    if forall d | d != c :: SameRecord(m1, m2, d) {
      forall d | d != c ensures SameRecord(m, m2, d) { assert SameRecord(m, m1, d) && SameRecord(m1, m2, d); }
    }
  }

  // ----- join --------------------------------------------------------------------------------------

  /** Somebody may sit down: a member, in no other call, with a seat theirs already or one of the four free. */
  ghost predicate MaySit(n: Node, c: CallId, u: UserId, member: bool) {
    && member && n.mem.Live(c)
    && (forall d | n.mem.IsJoined(d, u) :: d == c)
    && (n.mem.IsJoined(c, u) || |n.mem.calls[c].JoinedSet()| < 4)
  }

  /**
   A join that may sit down is in the call, rung no more, busy and without a running
   grace, and answers the call if it rang; its batch is out. Any other changes nothing.
   */
  lemma JoinSeats(s: Server, c: CallId, u: UserId, conv: Conversation, member: bool, now: int)
    requires Reachable(s) && Enabled(s, Joins(c, u, conv, member, now))
    ensures var s' := Next(s, Joins(c, u, conv, member, now));
            && s' == s.(node := s'.node)
            && if MaySit(s.node, c, u, member) then SatDown(s.node, s'.node, c, u, now) else s' == s
  {
    hide SatDown, MarkJoined, Call.JoinedSet, Shapes, ConversationsAgree, Reachable, AllCallsOk, UsersAgree, TimersAgree;
    UsersAndShapes(s);
    var n := s.node;
    Busy(n.mem, u);
    if n.mem.Live(c) && (u in n.mem.byUser ==> n.mem.byUser[u] == c) {
      var became := !n.mem.IsJoined(c, u) && n.mem.calls[c].status.Ringing?;
      Seating(n, c, u, now, Send(n.(mem := MarkJoined(n.mem, c, u, now)), UpsertJoin(c, u, n.mem.IsJoined(c, u), became)));
    }
  }

  lemma Busy(m: Mem, u: UserId)
    requires UsersAgree(m)
    ensures u in m.byUser <==> exists d :: m.IsJoined(d, u)
    ensures forall d :: m.IsJoined(d, u) <==> u in m.byUser && m.byUser[u] == d
  {
    if u in m.byUser { assert m.IsJoined(m.byUser[u], u); }
  }

  ghost predicate SatDown(n: Node, n': Node, c: CallId, u: UserId, now: int)
    requires c in n.mem.calls
  {
    var (call, already) := (n.mem.calls[c], n.mem.IsJoined(c, u));
    && Sent(n, n', UpsertJoin(c, u, already, !already && call.status.Ringing?))
    && n'.mem.Live(c) && OthersStay(n, n', c) && n'.online == n.online
    && n'.mem.calls[c].JoinedSet() == call.JoinedSet() + {u} && n'.mem.calls[c].PendingSet() == call.PendingSet() - {u}
    && (if already then SameTalk(n.mem, n'.mem, c)
        else && n'.mem.calls[c].status.Ongoing?
             && n'.mem.calls[c].answeredAt == if call.status.Ringing? then Some(now) else call.answeredAt)
    && u in n'.mem.byUser && n'.mem.byUser[u] == c
    && u in n'.mem.calls[c].people && n'.mem.calls[c].people[u].joinedAt ==
         (if u in call.people && call.people[u].joinedAt.Some? then call.people[u].joinedAt else Some(now))
    && (forall t | t in n'.mem.armed :: !(t.GraceTimer? && t.call == c && t.user == u))
  }

  lemma Seating(n: Node, c: CallId, u: UserId, now: int, n': Node)
    requires n.mem.Live(c) && TimersAgree(n.mem) && UsersAgree(n.mem)
    requires n' == Send(n.(mem := MarkJoined(n.mem, c, u, now)),
                        UpsertJoin(c, u, n.mem.IsJoined(c, u), !n.mem.IsJoined(c, u) && n.mem.calls[c].status.Ringing?))
    ensures SatDown(n, n', c, u, now)
  {
    SeatedPeople(n.mem, c, u, now);
    MarkJoinedOthers(n.mem, c, u, now);
    SeatedGrace(n.mem, c, u, now);
    hide SameRecord, Call.JoinedSet, Call.PendingSet, TimersAgree;
  }

  lemma SeatedPeople(m: Mem, c: CallId, u: UserId, now: int)
    requires m.Live(c)
    ensures var (call, call') := (m.calls[c], MarkJoined(m, c, u, now).calls[c]);
            call'.JoinedSet() == call.JoinedSet() + {u} && call'.PendingSet() == call.PendingSet() - {u}
  {
    var (call, call') := (m.calls[c], MarkJoined(m, c, u, now).calls[c]);
    assert call'.JoinedSet() == call.JoinedSet() + {u};
    assert call'.PendingSet() == call.PendingSet() - {u};
  }

  lemma SeatedGrace(m: Mem, c: CallId, u: UserId, now: int)
    requires m.Live(c) && TimersAgree(m)
    ensures forall t | t in MarkJoined(m, c, u, now).armed :: !(t.GraceTimer? && t.call == c && t.user == u)
  {
    forall t | t in m.armed && t.GraceTimer? && t.call == c && t.user == u ensures EntryOf(m, c, u).grace == Some(t) {
      assert GraceHandle(m, c, u, t);
    }
  }

  // ----- the last socket ---------------------------------------------------------------------------

  /** Nothing was sent but finalizers that say MISSED, each of a call that was there. */
  ghost predicate OnlyMissed(n: Node, n': Node, now: int) {
    && |n.batches| <= |n'.batches| && n'.batches[..|n.batches|] == n.batches
    && forall j | |n.batches| <= j < |n'.batches| ::
         n'.batches[j].op.call in n.mem.calls && Finishes(n, n'.batches[j], n'.batches[j].op.call, Missed, now)
  }

  ghost predicate Died(n: Node, n': Node, c: CallId) {
    && !n'.mem.Live(c)
    && exists j :: |n.batches| <= j < |n'.batches| && n'.batches[j].op.call == c
  }

  ghost predicate StillOn(n: Node, n': Node, c: CallId, joined: set<UserId>, pending: set<UserId>) {
    && c in n'.mem.calls && n'.mem.Live(c) && SameTalk(n.mem, n'.mem, c)
    && n'.mem.calls[c].JoinedSet() == joined && n'.mem.calls[c].PendingSet() == pending
  }

  /** A DM dies with the callee; a group only loses the ring, and dies if it rang nobody else. */
  ghost predicate RingLostIn(n: Node, n': Node, c: CallId, u: UserId)
    requires c in n.mem.calls
  {
    var call := n.mem.calls[c];
    if call.conv.Direct? || (call.status.Ringing? && call.PendingSet() == {u}) then Died(n, n', c)
    else StillOn(n, n', c, call.JoinedSet(), call.PendingSet() - {u})
  }

  /** What the last socket's loss does to one call: its ringing starter takes it along, anybody else joined has a grace. */
  ghost predicate LostIn(n: Node, n': Node, c: CallId, u: UserId) {
    if n.mem.Live(c) && n.mem.IsJoined(c, u) then
      var call := n.mem.calls[c];
      if call.status.Ringing? && call.startedBy == u then Died(n, n', c)
      else StillOn(n, n', c, call.JoinedSet(), call.PendingSet())
           && exists t :: t in n'.mem.armed && GraceHandle(n'.mem, c, u, t)
    else if n.mem.Live(c) && n.mem.IsPending(c, u) then RingLostIn(n, n', c, u)
    else SameRecord(n.mem, n'.mem, c)
  }

  lemma LoseRingLoses(n: Node, c: CallId, u: UserId, now: int)
    requires n.mem.Live(c) && n.mem.IsPending(c, u)
    ensures var n' := LoseRing(n, c, u, now);
            RingLostIn(n, n', c, u) && OnlyMissed(n, n', now) && OthersStay(n, n', c) && n'.mem.armed == n.mem.armed && n'.online == n.online
  {
    hide EndCall, MarkRungGone, Call.JoinedSet, SameRecord, Says;
    var n1 := n.(mem := MarkRungGone(n.mem, c, u));
    assert u in n.mem.calls[c].PendingSet();
    RingLost(n.mem, n1.mem, c, u);
    EndCallEnds(n, c, Missed, now);
    EndCallEnds(n1, c, Missed, now);
    EndsAfter(n, n1, EndCall(n1, c, Missed, now), c, Missed, now);
    EndCallArms(n, c, Missed, now);
    EndCallArms(n1, c, Missed, now);
    assert MarkRungGone(n.mem, c, u).armed == n.mem.armed by { RungGoneArms(n.mem, c, u); }
    var n' := LoseRing(n, c, u, now);
    if !n'.mem.Live(c) { assert n'.batches[|n.batches|].op.call == c; }
  }

  lemma RungGoneArms(m: Mem, c: CallId, u: UserId)
    ensures MarkRungGone(m, c, u).armed == m.armed
  {
  }

  lemma OnlyMissedTwice(n: Node, n1: Node, n': Node, now: int)
    requires OnlyMissed(n, n1, now) && OnlyMissed(n1, n', now)
    requires forall d | d in n1.mem.calls :: d in n.mem.calls && SameTalk(n.mem, n1.mem, d)
    ensures OnlyMissed(n, n', now)
  {
  }

  /** Each listed ring is lost, once, and no other call is touched. */
  ghost predicate RingsLost(n: Node, n': Node, rings: seq<CallId>, u: UserId, now: int) {
    && OnlyMissed(n, n', now) && n'.mem.armed == n.mem.armed && n'.online == n.online
    && (forall c | c in rings :: c in n.mem.calls && RingLostIn(n, n', c, u))
    && (forall c | c !in rings :: SameRecord(n.mem, n'.mem, c))
    && (forall c | c in n'.mem.calls :: c in n.mem.calls && SameTalk(n.mem, n'.mem, c))
  }

  lemma {:induction false} LoseRingsLose(n: Node, rings: seq<CallId>, u: UserId, now: int)
    requires forall c | c in rings :: n.mem.Live(c) && n.mem.IsPending(c, u)
    requires forall i, j | 0 <= i < j < |rings| :: rings[i] != rings[j]
    ensures RingsLost(n, LoseRings(n, rings, u, now), rings, u, now)
  {
    hide LoseRing, RingLostIn;
    if rings != [] {
      var (front, c) := (rings[..|rings|-1], rings[|rings|-1]);
      assert rings == front + [c];
      LoseRingsLose(n, front, u, now);
      OneMoreRing(n, LoseRings(n, front, u, now), front, c, u, now);
    }
  }

  lemma OneMoreRing(n: Node, n1: Node, front: seq<CallId>, c: CallId, u: UserId, now: int)
    requires RingsLost(n, n1, front, u, now) && c !in front && n.mem.Live(c) && n.mem.IsPending(c, u)
    ensures RingsLost(n, LoseRing(n1, c, u, now), front + [c], u, now)
  {
    hide LoseRing, RingLostIn, OnlyMissed, SameTalk;
    var n' := LoseRing(n1, c, u, now);
    assert SameRecord(n.mem, n1.mem, c);
    LoseRingLoses(n1, c, u, now);
    OnlyMissedTwice(n, n1, n', now);
    RingLostSooner(n, n1, n', c, u, now);
    forall d | d in front ensures RingLostIn(n, n', d, u) {
      assert SameRecord(n1.mem, n'.mem, d);
      RingStaysLost(n, n1, n', d, u, now);
    }
    forall d | d !in front + [c] ensures SameRecord(n.mem, n'.mem, d) {
      assert SameRecord(n.mem, n1.mem, d) && SameRecord(n1.mem, n'.mem, d);
    }
    LoseRingTalks(n1, c, u, now);
    forall d | d in n'.mem.calls ensures d in n.mem.calls && SameTalk(n.mem, n'.mem, d) {
      SameTalkTwice(n.mem, n1.mem, n'.mem, d);
    }
  }

  lemma SameTalkTwice(m: Mem, m1: Mem, m2: Mem, d: CallId)
    requires SameTalk(m, m1, d) && SameTalk(m1, m2, d) && d in m1.calls
    ensures SameTalk(m, m2, d)
  {
  }

  lemma LoseRingTalks(n: Node, c: CallId, u: UserId, now: int)
    ensures var m' := LoseRing(n, c, u, now).mem;
            m'.calls.Keys == n.mem.calls.Keys && forall d | d in m'.calls :: SameTalk(n.mem, m', d)
  {
    hide EndCall, MarkRungGone, SameTalk, Call.PendingSet;
    var n1 := n.(mem := MarkRungGone(n.mem, c, u));
    RungGoneTalks(n.mem, c, u);
    EndCallTalks(n, c, Missed, now);
    EndCallTalks(n1, c, Missed, now);
    forall d | d in n.mem.calls ensures SameTalk(n.mem, EndCall(n1, c, Missed, now).mem, d) && SameTalk(n.mem, n.mem, d) {
      SameTalkTwice(n.mem, n1.mem, EndCall(n1, c, Missed, now).mem, d);
      SameIsSame(n.mem, d);
    }
  }

  lemma RungGoneTalks(m: Mem, c: CallId, u: UserId)
    ensures MarkRungGone(m, c, u).calls.Keys == m.calls.Keys && forall d | d in m.calls :: SameTalk(m, MarkRungGone(m, c, u), d)
  {
  }

  lemma RingLostSooner(n: Node, n1: Node, n': Node, c: CallId, u: UserId, now: int)
    requires OnlyMissed(n, n1, now) && c in n.mem.calls && SameRecord(n.mem, n1.mem, c) && RingLostIn(n1, n', c, u)
    ensures RingLostIn(n, n', c, u)
  {
  }

  lemma RingStaysLost(n: Node, n1: Node, n': Node, d: CallId, u: UserId, now: int)
    requires OnlyMissed(n1, n', now) && d in n.mem.calls && RingLostIn(n, n1, d, u) && SameRecord(n1.mem, n'.mem, d)
    ensures RingLostIn(n, n', d, u)
  {
    hide Finishes;
    if Died(n, n1, d) {
      var j :| |n.batches| <= j < |n1.batches| && n1.batches[j].op.call == d;
      assert n'.batches[..|n1.batches|][j] == n'.batches[j];
    }
  }

  /** The first half: the call the user is in, if any, is ended or waited for. */
  ghost predicate OwnLost(n: Node, n1: Node, u: UserId, now: int) {
    && OnlyMissed(n, n1, now) && n1.online == n.online && n1.mem.calls.Keys == n.mem.calls.Keys
    && (forall d | n.mem.Live(d) && n.mem.IsJoined(d, u) :: LostIn(n, n1, d, u))
    && (forall d | !(n.mem.Live(d) && n.mem.IsJoined(d, u)) :: SameRecord(n.mem, n1.mem, d))
    && (forall d | d in n1.mem.calls :: SameTalk(n.mem, n1.mem, d))
  }

  lemma LoseOwnLoses(n: Node, u: UserId, now: int)
    requires MemInv(n.mem)
    ensures OwnLost(n, LoseOwnCall(n, u, now), u, now)
  {
    hide EndCall, StartGrace, OwnLost, MemInv, UsersAgree, TimersAgree;
    UsersOf(n.mem);
    Busy(n.mem, u);
    if u in n.mem.byUser && n.mem.Live(n.mem.byUser[u]) {
      var c := n.mem.byUser[u];
      if n.mem.calls[c].status.Ringing? && n.mem.calls[c].startedBy == u { OwnRingEnds(n, c, u, now); } else { OwnCallWaits(n, c, u, now); }
    } else {
      NothingLost(n, u, now);
    }
  }

  lemma NothingLost(n: Node, u: UserId, now: int)
    requires forall d :: !(n.mem.Live(d) && n.mem.IsJoined(d, u))
    ensures OwnLost(n, n, u, now)
  {
    hide LostIn, Finishes;
  }

  lemma OwnRingEnds(n: Node, c: CallId, u: UserId, now: int)
    requires n.mem.Live(c) && n.mem.calls[c].status.Ringing? && n.mem.calls[c].startedBy == u
    requires forall d :: n.mem.IsJoined(d, u) <==> d == c
    ensures OwnLost(n, EndCall(n, c, Missed, now), u, now)
  {
    hide EndCall, Says, SameRecord, SameTalk, Call.JoinedSet, Call.PendingSet, Mem.IsJoined;
    EndCallEnds(n, c, Missed, now);
    EndCallTalks(n, c, Missed, now);
    assert EndCall(n, c, Missed, now).batches[|n.batches|].op.call == c;
  }

  lemma OwnCallWaits(n: Node, c: CallId, u: UserId, now: int)
    requires n.mem.Live(c) && TimersAgree(n.mem) && !(n.mem.calls[c].status.Ringing? && n.mem.calls[c].startedBy == u)
    requires forall d :: n.mem.IsJoined(d, u) <==> d == c
    ensures OwnLost(n, StartGrace(n, c, u), u, now)
  {
    hide StartGrace, Finishes, SameRecord, SameTalk, Call.JoinedSet, Call.PendingSet, Mem.IsJoined, TimersAgree;
    GraceStarts(n, c, u);
    hide GraceHandle;
  }

  lemma EndCallTalks(n: Node, c: CallId, verdict: Verdict, now: int)
    ensures var m' := EndCall(n, c, verdict, now).mem;
            m'.calls.Keys == n.mem.calls.Keys && forall d | d in m'.calls :: SameTalk(n.mem, m', d)
  {
  }

  lemma GraceStarts(n: Node, c: CallId, u: UserId)
    requires TimersAgree(n.mem) && n.mem.IsJoined(c, u)
    ensures var n' := StartGrace(n, c, u);
            && n'.batches == n.batches && n'.online == n.online && n'.mem.calls.Keys == n.mem.calls.Keys
            && OthersStay(n, n', c) && (n'.mem.Live(c) <==> n.mem.Live(c))
            && (forall d | d in n'.mem.calls :: SameTalk(n.mem, n'.mem, d))
            && n'.mem.calls[c].JoinedSet() == n.mem.calls[c].JoinedSet() && n'.mem.calls[c].PendingSet() == n.mem.calls[c].PendingSet()
            && exists t :: t in n'.mem.armed && GraceHandle(n'.mem, c, u, t)
  {
    var (n', t) := (StartGrace(n, c, u), GraceTimer(n.mem.issued, c, u));
    assert n'.mem.calls[c].JoinedSet() == n.mem.calls[c].JoinedSet();
    assert n'.mem.calls[c].PendingSet() == n.mem.calls[c].PendingSet();
    var g := n.mem.calls[c].people[u].grace;
    assert g.Some? ==> GraceHandle(n.mem, c, u, g.value);
    assert t in n'.mem.armed && GraceHandle(n'.mem, c, u, t);
  }

  /**
   A socket that is not the user's last changes nothing but presence. The last one ends a
   ring the user started as MISSED, gives a joined user a grace, and loses every ring the
   user had pending; nothing else is sent and no other call is touched.
   */
  lemma DisconnectLoses(s: Server, u: UserId, k: SocketId, rings: seq<CallId>, now: int)
    requires Reachable(s) && Enabled(s, Disconnects(u, k, rings, now))
    ensures var s' := Next(s, Disconnects(u, k, rings, now));
            var (n, n') := (s.node, s'.node);
            && s' == s.(node := n')
            && SocketsOf(n'.online, u) == SocketsOf(n.online, u) - {k}
            && (forall w | w != u :: SocketsOf(n'.online, w) == SocketsOf(n.online, w))
            && if SocketsOf(n.online, u) != {k} then n'.mem == n.mem && n'.batches == n.batches
               else OnlyMissed(n, n', now) && forall c :: LostIn(n, n', c, u)
  {
    hide LostIn, LoseOwnCall, LoseRings, Reachable, RingLostIn, OnlyMissed, SameTalk, MemInv, Shapes;
    UsersAndShapes(s);
    var n := s.node;
    SocketsLeft(n.online, u, k);
    if SocketsOf(n.online, u) == {k} {
      var (own, n1) := (LoseOwnCall(n, u, now), CallListener(n, u, rings, now));
      LoseOwnLoses(n, u, now);
      forall c | c in rings ensures own.mem.Live(c) && own.mem.IsPending(c, u) { assert c in own.mem.RingsFor(u); }
      LoseRingsLose(own, rings, u, now);
      forall c ensures LostIn(n, n1, c, u) { assert c in rings <==> c in own.mem.RingsFor(u); LostTwice(n, own, n1, rings, c, u, now); }
      MissedBoth(n, own, n1, rings, u, now);
      MissedUnseen(n, n1, Disconnect(n, u, k, rings, now), now);
      forall c ensures LostIn(n, Disconnect(n, u, k, rings, now), c, u) { LostUnseen(n, n1, Disconnect(n, u, k, rings, now), c, u); }
    }
  }

  lemma SocketsLeft(online: map<UserId, set<SocketId>>, u: UserId, k: SocketId)
    requires k in SocketsOf(online, u)
    ensures SocketsOf(RemoveSocket(online, u, k), u) == SocketsOf(online, u) - {k}
    ensures forall w | w != u :: SocketsOf(RemoveSocket(online, u, k), w) == SocketsOf(online, w)
    ensures Count(online, u) > 1 <==> SocketsOf(online, u) != {k}
  {
    if Count(online, u) == 1 { assert |SocketsOf(online, u) - {k}| == 0; }
  }

  lemma MissedBoth(n: Node, own: Node, n1: Node, rings: seq<CallId>, u: UserId, now: int)
    requires OnlyMissed(n, own, now) && RingsLost(own, n1, rings, u, now) && own.mem.calls.Keys == n.mem.calls.Keys
    requires forall d | d in own.mem.calls :: SameTalk(n.mem, own.mem, d)
    ensures OnlyMissed(n, n1, now)
  {
    hide OnlyMissed, RingLostIn, SameRecord;
    OnlyMissedTwice(n, own, n1, now);
  }

  lemma MissedUnseen(n: Node, n1: Node, n': Node, now: int)
    requires OnlyMissed(n, n1, now) && n'.batches == n1.batches
    ensures OnlyMissed(n, n', now)
  {
  }

  lemma LostTwice(n: Node, own: Node, n1: Node, rings: seq<CallId>, c: CallId, u: UserId, now: int)
    requires OnlyMissed(n, own, now) && RingsLost(own, n1, rings, u, now)
    requires c in rings <==> own.mem.Live(c) && own.mem.IsPending(c, u)
    requires n.mem.Live(c) && n.mem.IsJoined(c, u) ==> LostIn(n, own, c, u)
    requires !(n.mem.Live(c) && n.mem.IsJoined(c, u)) ==> SameRecord(n.mem, own.mem, c)
    ensures LostIn(n, n1, c, u)
  {
    hide Finishes, RingLostIn;
    if n.mem.Live(c) && n.mem.IsJoined(c, u) {
      JoinedIsNotRung(n, own, c, u);
      assert SameRecord(own.mem, n1.mem, c);
      LostAlready(n, own, n1, c, u, now);
    } else if c in rings {
      RingLostSooner(n, own, n1, c, u, now);
    } else {
      assert SameRecord(own.mem, n1.mem, c);
    }
  }

  lemma JoinedIsNotRung(n: Node, own: Node, c: CallId, u: UserId)
    requires n.mem.Live(c) && n.mem.IsJoined(c, u) && LostIn(n, own, c, u)
    ensures !(own.mem.Live(c) && own.mem.IsPending(c, u))
  {
    assert u in n.mem.calls[c].JoinedSet();
    if own.mem.Live(c) { PeopleAreEither(own.mem.calls[c], u); }
  }

  lemma LostAlready(n: Node, own: Node, n1: Node, c: CallId, u: UserId, now: int)
    requires n.mem.Live(c) && n.mem.IsJoined(c, u) && LostIn(n, own, c, u)
    requires SameRecord(own.mem, n1.mem, c) && OnlyMissed(own, n1, now) && n1.mem.armed == own.mem.armed
    ensures LostIn(n, n1, c, u)
  {
    hide Finishes;
    if Died(n, own, c) {
      var j :| |n.batches| <= j < |own.batches| && own.batches[j].op.call == c;
      assert n1.batches[..|own.batches|][j] == n1.batches[j];
    } else {
      var t :| t in own.mem.armed && GraceHandle(own.mem, c, u, t);
      assert t in n1.mem.armed && GraceHandle(n1.mem, c, u, t);
    }
  }

  lemma LostUnseen(n: Node, n1: Node, n': Node, c: CallId, u: UserId)
    requires LostIn(n, n1, c, u) && n'.mem == n1.mem && n'.batches == n1.batches
    ensures LostIn(n, n', c, u)
  {
    if n.mem.Live(c) && n.mem.IsJoined(c, u) && !Died(n, n1, c) {
      var t :| t in n1.mem.armed && GraceHandle(n1.mem, c, u, t);
      assert t in n'.mem.armed && GraceHandle(n'.mem, c, u, t);
    }
    if Died(n, n1, c) {
      var j :| |n.batches| <= j < |n1.batches| && n1.batches[j].op.call == c;
      assert n'.batches[j].op.call == c;
    }
  }

  /** Two minutes of ringing and no less let the sweeper take a call: out of memory, its slot free, its row alone stamped. */
  lemma SweepTakesTheStuck(s: Server, c: CallId, now: int)
    requires Reachable(s)
    ensures var s' := Next(s, SweeperFires(c, now));
            var (n, n') := (s.node, s'.node);
            && s'.db == s.db
            && if RingsOn(n.mem, c) && now - n.mem.calls[c].startedAt > 120000
               then c !in n'.mem.calls && OthersStay(n, n', c) && Sent(n, n', StampSwept(c))
                    && n.mem.calls[c].conv !in n'.mem.byConversation && forall u | u in n'.mem.byUser :: n'.mem.byUser[u] != c
               else s' == s
  {
    hide Reachable, TimersAgree, AllCallsOk, Shapes;
    UsersAndShapes(s);
    if RingsOn(s.node.mem, c) { Removing(s.node.mem, c); }
  }

  lemma Removing(m: Mem, c: CallId)
    requires UsersAgree(m) && ConversationsAgree(m) && c in m.calls
    ensures c !in Remove(m, c).calls && (forall d | d != c :: SameRecord(m, Remove(m, c), d))
    ensures m.calls[c].conv !in Remove(m, c).byConversation && forall u | u in Remove(m, c).byUser :: Remove(m, c).byUser[u] != c
  {
    forall u | u in m.byUser && m.byUser[u] == c ensures u in m.calls[c].people { assert m.IsJoined(c, u); }
  }

  // ----- invite and connect ------------------------------------------------------------------------

  function OthersOnline(n: Node, u: UserId, members: set<UserId>): set<UserId> {
    set w | w in members && w != u && SocketsOf(n.online, w) != {}
  }

  /**
   A call may be started: by a member, with nobody blocked, who is in no call, in a
   conversation without one, to somebody who is online; and a DM only if its peer is free.
   */
  ghost predicate MayInvite(n: Node, u: UserId, conv: Conversation, member: bool, members: Option<set<UserId>>, blocked: bool) {
    && member && members.Some? && !blocked
    && (forall d :: !n.mem.IsJoined(d, u))
    && (forall d | d in n.mem.calls :: n.mem.calls[d].conv != conv)
    && OthersOnline(n, u, members.value) != {}
    && (conv.Direct? ==> forall w, d | w in OthersOnline(n, u, members.value) :: !n.mem.IsJoined(d, w))
  }

  /** The call rings everybody online, its starter alone in it; the insert is out and no timer runs yet. */
  ghost predicate Started(n: Node, n': Node, c: CallId, u: UserId, conv: Conversation, kind: Kind, rung: set<UserId>, now: int) {
    && Sent(n, n', InsertCall(c, conv, kind, u, rung)) && OthersStay(n, n', c) && n'.online == n.online
    && RingsOn(n'.mem, c)
    && var call := n'.mem.calls[c];
    && call.conv == conv && call.kind == kind && call.startedBy == u && call.startedAt == now
    && call.JoinedSet() == {u} && call.PendingSet() == rung && n'.mem.armed == n.mem.armed
    && u in n'.mem.byUser && n'.mem.byUser[u] == c && conv in n'.mem.byConversation && n'.mem.byConversation[conv] == c
  }

  lemma InviteStarts(s: Server, c: CallId, u: UserId, conv: Conversation, kind: Kind, member: bool,
                     members: Option<set<UserId>>, blocked: bool, now: int)
    requires Reachable(s) && Enabled(s, Invites(c, u, conv, kind, member, members, blocked, now))
    ensures var s' := Next(s, Invites(c, u, conv, kind, member, members, blocked, now));
            && s' == s.(node := s'.node, log := s'.log) && s'.log == s.log.(used := s.log.used + {c})
            && if MayInvite(s.node, u, conv, member, members, blocked)
               then Started(s.node, s'.node, c, u, conv, kind, OthersOnline(s.node, u, members.value), now)
               else s'.node == s.node
  {
    hide Started, Create, Reachable, Shapes, MemInv, MayInvite, UsersAgree, ConversationsAgree, InviteAnswerOf;
    UsersAndShapes(s);
    var n := s.node;
    MayInviteIsReserved(n, u, conv, member, members, blocked);
    if members.Some? {
      OnlineIsOnline(n, u, members.value);
      Starting(n, c, u, conv, kind, OthersOnline(n, u, members.value), now);
    }
  }

  lemma MayInviteIsReserved(n: Node, u: UserId, conv: Conversation, member: bool, members: Option<set<UserId>>, blocked: bool)
    requires UsersAgree(n.mem) && ConversationsAgree(n.mem)
    ensures InviteAnswerOf(n, u, conv, member, members, blocked).Reserved? <==> MayInvite(n, u, conv, member, members, blocked)
    ensures MayInvite(n, u, conv, member, members, blocked) ==> members.Some?
  {
    Busy(n.mem, u);
    forall w ensures w in n.mem.byUser <==> exists d :: n.mem.IsJoined(d, w) { Busy(n.mem, w); }
    if members.Some? { OnlineIsOnline(n, u, members.value); }
    assert forall d | d in n.mem.calls :: n.mem.calls[d].conv in n.mem.byConversation;
    hide OthersOnline, OnlineOthers, UsersAgree, Mem.IsJoined;
  }

  lemma OnlineIsOnline(n: Node, u: UserId, members: set<UserId>)
    ensures OnlineOthers(n, u, members) == OthersOnline(n, u, members)
  {
    forall w ensures Count(n.online, w) > 0 <==> SocketsOf(n.online, w) != {} {}
  }

  lemma Starting(n: Node, c: CallId, u: UserId, conv: Conversation, kind: Kind, rung: set<UserId>, now: int)
    requires u !in rung
    ensures Started(n, Send(n.(mem := Create(n.mem, c, conv, kind, u, rung, now)), InsertCall(c, conv, kind, u, rung)),
                    c, u, conv, kind, rung, now)
  {
    var call := NewCall(conv, kind, u, rung, now);
    assert call.JoinedSet() == {u};
    assert call.PendingSet() == rung;
  }

  /** A socket more, and no grace of the user left running; nothing else changes. */
  lemma ConnectClearsGraces(s: Server, u: UserId, k: SocketId)
    requires Reachable(s) && Enabled(s, Connects(u, k))
    ensures var s' := Next(s, Connects(u, k));
            && s' == s.(node := s'.node) && NobodyMoved(s.node, s'.node)
            && SocketsOf(s'.node.online, u) == SocketsOf(s.node.online, u) + {k}
            && (forall w | w != u :: SocketsOf(s'.node.online, w) == SocketsOf(s.node.online, w))
            && forall t :: t in s'.node.mem.armed <==> t in s.node.mem.armed && !(t.GraceTimer? && t.user == u)
  {
    hide NobodyMoved, Reachable, Shapes, MemInv;
    UsersAndShapes(s);
    GracesCleared(s.node.mem, u);
    ClearMovesNobody(s.node, Connect(s.node, u, k), u);
  }

  lemma GracesCleared(m: Mem, u: UserId)
    requires MemInv(m)
    ensures forall t :: t in ClearUserGraceTimers(m, u).armed <==> t in m.armed && !(t.GraceTimer? && t.user == u)
  {
    forall t | t in m.armed ensures t in GracesOf(m, u) <==> t.GraceTimer? && t.user == u {
      if t.GraceTimer? { assert GraceHandle(m, t.call, t.user, t); }
      if t in GracesOf(m, u) {
        var c :| c in m.calls && u in m.calls[c].people && m.calls[c].people[u].grace == Some(t);
        assert GraceHandle(m, c, u, t);
      }
    }
  }

  lemma ClearMovesNobody(n: Node, n': Node, u: UserId)
    requires n'.mem == ClearUserGraceTimers(n.mem, u) && n'.batches == n.batches
    ensures NobodyMoved(n, n')
  {
    forall d | d in n.mem.calls ensures n'.mem.calls[d].JoinedSet() == n.mem.calls[d].JoinedSet()
      && n'.mem.calls[d].PendingSet() == n.mem.calls[d].PendingSet() {}
  }

  // ----- the answers ---------------------------------------------------------------------------------

  /** What a join is told, and that each refusal has its one reason. */
  lemma JoinIsAnswered(s: Server, c: CallId, u: UserId, member: bool)
    requires Reachable(s)
    ensures var (n, answer) := (s.node, JoinAnswerOf(s.node, c, u, member));
            && (answer.Joined? <==> MaySit(n, c, u, member))
            && (answer.Joined? ==> (answer.alreadyJoined <==> n.mem.IsJoined(c, u))
                                   && (answer.becameOngoing <==> !n.mem.IsJoined(c, u) && RingsOn(n.mem, c)))
            && (answer.JoinNotFound? <==> !member || !n.mem.Live(c))
            && (answer.JoinSelfBusy? <==> member && n.mem.Live(c) && exists d :: d != c && n.mem.IsJoined(d, u))
            && (answer.CallFull? ==> |n.mem.calls[c].JoinedSet()| == 4 && !n.mem.IsJoined(c, u))
  {
    UsersAndShapes(s);
    Busy(s.node.mem, u);
    if s.node.mem.Live(c) { assert CallOk(s.node.mem.calls[c]); }
    hide Call.JoinedSet, Reachable, UsersAgree, TimersAgree, ConversationsAgree, AllCallsOk, Shapes;
  }

  /** What an invite is told: the first of its reasons, in the order of the checks. */
  lemma InviteIsAnswered(s: Server, u: UserId, conv: Conversation, member: bool, members: Option<set<UserId>>, blocked: bool)
    requires Reachable(s)
    ensures var (n, answer) := (s.node, InviteAnswerOf(s.node, u, conv, member, members, blocked));
            && (answer.Reserved? <==> MayInvite(n, u, conv, member, members, blocked))
            && (answer.ConversationNotFound? <==> !member || members.None? || blocked)
            && (answer.SelfBusy? <==> member && members.Some? && !blocked && exists d :: n.mem.IsJoined(d, u))
            && (answer.CallActive? ==> answer.call in n.mem.calls && n.mem.calls[answer.call].conv == conv)
            && (answer.CallActive? <==> member && members.Some? && !blocked && (forall d :: !n.mem.IsJoined(d, u))
                                        && exists d :: d in n.mem.calls && n.mem.calls[d].conv == conv)
            && (answer.Offline? ==> OthersOnline(n, u, members.value) == {})
            && (answer.PeerBusy? ==> conv.Direct? && exists w, d :: w in OthersOnline(n, u, members.value) && n.mem.IsJoined(d, w))
  {
    hide Reachable, TimersAgree, AllCallsOk, Shapes;
    UsersAndShapes(s);
    var n := s.node;
    Busy(n.mem, u);
    if members.Some? {
      OnlineIsOnline(n, u, members.value);
      forall w ensures w in n.mem.byUser <==> exists d :: n.mem.IsJoined(d, w) { Busy(n.mem, w); }
    }
    assert forall d | d in n.mem.calls :: n.mem.calls[d].conv in n.mem.byConversation;
    hide OthersOnline, OnlineOthers, UsersAgree, MemInv;
  }
}
