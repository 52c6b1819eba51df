/**
 What the ordinary segments have in common, seen from one call: all but an invite, an
 answered batch, a continuation and a sweep only ever take a live call on or end it.
 One relation says so of any two nodes. It is shown of each segment once, from the
 mutators up, and then serves every result that follows a call through a run: which
 rings are timed, which rows are lost, and that a call out of memory stays out.
 */
module CallSteps {
  import opened Common
  import opened CallModel
  import opened CallSegments
  import opened CallProtocol

  predicate RingsOn(m: Mem, c: CallId) { m.Live(c) && m.calls[c].status.Ringing? }

  predicate EndsNow(b: Batch, c: CallId) { b.op.Finalize? && b.op.call == c && b.phase.InFlight? }

  /** Memory as one call sees it: nothing comes to life, starts to ring or gains a timer. */
  ghost predicate MemOrdinary(m: Mem, m': Mem, c: CallId) {
    && (m'.Live(c) ==> m.Live(c))
    && (RingsOn(m', c) ==> RingsOn(m, c))
    && (c in m'.calls ==>
          && c in m.calls
          && (m'.calls[c].ringTimer == m.calls[c].ringTimer || (m'.calls[c].ringTimer.None? && !RingsOn(m', c))))
  }

  predicate OrdinaryOp(op: Op) { op.StampLeft? || op.Finalize? || op.UpsertJoin? }

  /** Batches of the call are sent only while it lives, and of these kinds; and a call that dies sends its finalizer. */
  ghost predicate Ordinary(n: Node, n': Node, c: CallId) {
    && MemOrdinary(n.mem, n'.mem, c)
    && |n.batches| <= |n'.batches|
    && (forall j | 0 <= j < |n.batches| :: n'.batches[j] == n.batches[j])
    && (forall j | |n.batches| <= j < |n'.batches| && n'.batches[j].op.call == c ::
          n.mem.Live(c) && n'.batches[j].phase.InFlight? && OrdinaryOp(n'.batches[j].op))
    && (n.mem.Live(c) ==> n'.mem.Live(c) || exists j | |n.batches| <= j < |n'.batches| :: EndsNow(n'.batches[j], c))
  }

  // ----- what the segments say of a call's talk --------------------------------------------

  /** The finalizer names the call's own conversation and kind, and counts whole seconds of talk, to the nearest. */
  predicate Says(call: Call, op: Op, now: int)
    requires op.Finalize?
  {
    && op.conv == call.conv && op.kind == call.kind
    && (op.durationSec.Some? <==> op.verdict.Ended? && call.answeredAt.Some?)
    && (op.durationSec.Some? ==> -500 <= (now - call.answeredAt.value) - 1000 * op.durationSec.value < 500)
  }

  ghost predicate SameTalk(m: Mem, m': Mem, c: CallId) {
    c in m.calls && c in m'.calls ==>
      var (call, call') := (m.calls[c], m'.calls[c]);
      && call'.status == call.status && call'.answeredAt == call.answeredAt
      && call'.conv == call.conv && call'.kind == call.kind
      && call'.startedBy == call.startedBy && call'.startedAt == call.startedAt
  }

  /** Ordinary, and but for its end the call goes on as it was; a finalizer sent at `now` says of it what is true. */
  ghost predicate Settled(n: Node, n': Node, c: CallId, now: int) {
    && Ordinary(n, n', c)
    && SameTalk(n.mem, n'.mem, c)
    && (forall j | |n.batches| <= j < |n'.batches| && n'.batches[j].op.call == c :: !n'.batches[j].op.UpsertJoin?)
    && forall j | |n.batches| <= j < |n'.batches| && n'.batches[j].op.Finalize? && n'.batches[j].op.call == c ::
         c in n.mem.calls && !n'.mem.Live(c) && Says(n.mem.calls[c], n'.batches[j].op, now)
  }

  lemma SettledTwice(n: Node, n1: Node, n': Node, c: CallId, now: int)
    requires Settled(n, n1, c, now) && Settled(n1, n', c, now)
    ensures Settled(n, n', c, now)
  {
    hide EndsNow;
    OrdinaryTwice(n, n1, n', c);
  }

  // ----- the mutators -------------------------------------------------------------------------

  lemma OrdinaryTwice(n: Node, n1: Node, n': Node, c: CallId)
    requires Ordinary(n, n1, c) && Ordinary(n1, n', c)
    ensures Ordinary(n, n', c)
  {
    hide EndsNow;
    if n.mem.Live(c) && !n1.mem.Live(c) {
      var j :| |n.batches| <= j < |n1.batches| && EndsNow(n1.batches[j], c);
      assert EndsNow(n'.batches[j], c);
    }
  }

  /** A mutator that ends nothing. */
  ghost predicate Seats(m: Mem, m': Mem, c: CallId) { MemOrdinary(m, m', c) && (m.Live(c) ==> m'.Live(c)) }

  /** Nor answers anything. */
  ghost predicate Stays(m: Mem, m': Mem, c: CallId) { Seats(m, m', c) && SameTalk(m, m', c) }

  lemma MemAlone(n: Node, n': Node, c: CallId, now: int)
    requires Seats(n.mem, n'.mem, c) && n'.batches == n.batches
    ensures Ordinary(n, n', c)
    ensures SameTalk(n.mem, n'.mem, c) ==> Settled(n, n', c, now)
  {
    hide MemOrdinary, SameTalk;
  }

  lemma JoinedStays(m: Mem, d: CallId, u: UserId, now: int, c: CallId)
    ensures Seats(m, MarkJoined(m, d, u, now), c)
  {
  }

  lemma LeftStays(m: Mem, d: CallId, u: UserId, c: CallId)
    ensures Stays(m, MarkLeft(m, d, u), c)
  {
  }

  lemma FlagsStay(m: Mem, d: CallId, u: UserId, c: CallId)
    ensures Stays(m, MarkRejected(m, d, u), c) && Stays(m, MarkRungGone(m, d, u), c)
  {
  }

  lemma GracesStay(m: Mem, d: CallId, u: UserId, t: Timer, c: CallId)
    ensures Stays(m, SetGraceTimer(m, d, u, t), c) && Stays(m, ClearGraceTimer(m, d, u), c)
  {
  }

  lemma ClearedStays(m: Mem, u: UserId, c: CallId)
    ensures Stays(m, ClearUserGraceTimers(m, u), c)
  {
  }

  /** The event loop's own bookkeeping is no concern of a call. */
  lemma ArmedIsUnseen(m: Mem, m0: Mem, m': Mem, c: CallId)
    requires m0 == m.(armed := m0.armed, issued := m0.issued) && Stays(m0, m', c)
    ensures Stays(m, m', c)
  {
  }

  lemma SendIsSettled(n: Node, op: Op, c: CallId, now: int)
    requires n.mem.Live(op.call) && (op.StampLeft? || op.UpsertJoin?)
    ensures Ordinary(n, Send(n, op), c)
    ensures op.StampLeft? ==> Settled(n, Send(n, op), c, now)
  {
  }

  lemma SameIsSettled(n: Node, n': Node, c: CallId, now: int)
    requires n'.mem == n.mem && n'.batches == n.batches
    ensures Settled(n, n', c, now)
  {
  }

  lemma FinalSays(c: CallId, call: Call, verdict: Verdict, now: int)
    ensures Says(call, FinalOp(c, call, verdict, now), now)
  {
  }

  lemma EndCallIsSettled(n: Node, d: CallId, verdict: Verdict, now: int, c: CallId)
    ensures Settled(n, EndCall(n, d, verdict, now), c, now)
  {
    var n' := EndCall(n, d, verdict, now);
    if n.mem.Live(d) { FinalSays(d, n.mem.calls[d], verdict, now); }
    hide TalkSeconds, Says;
    if n.mem.Live(d) && c == d { assert EndsNow(n'.batches[|n.batches|], c); }
  }

  // ----- the segments ----------------------------------------------------------------

  lemma DepartIsSettled(n: Node, d: CallId, u: UserId, now: int, c: CallId)
    requires n.mem.Live(d)
    ensures Settled(n, Depart(n, d, u, now), c, now)
  {
    hide EndCall, Settled, Ordinary, MemOrdinary, MarkLeft;
    var n1 := n.(mem := MarkLeft(n.mem, d, u));
    LeftStays(n.mem, d, u, c);
    LeftStays(n.mem, d, u, d);
    MemAlone(n, n1, c, now);
    EndCallIsSettled(n1, d, Closing(n1.mem.calls[d]), now, c);
    SendIsSettled(n1, StampLeft(d, {u}), c, now);
    SettledTwice(n, n1, Depart(n, d, u, now), c, now);
  }

  lemma JoinIsOrdinary(n: Node, d: CallId, u: UserId, member: bool, now: int, c: CallId)
    ensures Ordinary(n, Join(n, d, u, member, now), c)
  {
    hide Ordinary, MemOrdinary, MarkJoined;
    match JoinAnswerOf(n, d, u, member)
    case Joined(already, became) =>
      var n1 := n.(mem := MarkJoined(n.mem, d, u, now));
      JoinedStays(n.mem, d, u, now, c);
      JoinedStays(n.mem, d, u, now, d);
      MemAlone(n, n1, c, now);
      SendIsSettled(n1, UpsertJoin(d, u, already, became), c, now);
      OrdinaryTwice(n, n1, Join(n, d, u, member, now), c);
    case _ => SameIsSettled(n, n, c, now);
  }

  lemma RejectIsSettled(n: Node, d: CallId, u: UserId, now: int, c: CallId)
    ensures Settled(n, Reject(n, d, u, now), c, now)
  {
    hide Settled, Ordinary, MemOrdinary, MarkRejected, EndCall;
    SameIsSettled(n, n, c, now);
    if n.mem.Live(d) && n.mem.IsPending(d, u) {
      var n1 := n.(mem := MarkRejected(n.mem, d, u));
      FlagsStay(n.mem, d, u, c);
      MemAlone(n, n1, c, now);
      EndCallIsSettled(n1, d, Rejected, now, c);
      EndCallIsSettled(n1, d, Missed, now, c);
      SettledTwice(n, n1, EndCall(n1, d, Rejected, now), c, now);
      SettledTwice(n, n1, EndCall(n1, d, Missed, now), c, now);
      assert d in n1.mem.calls by { FlagsStay(n.mem, d, u, d); }
    }
  }

  lemma LoseOwnCallIsSettled(n: Node, u: UserId, now: int, c: CallId)
    ensures Settled(n, LoseOwnCall(n, u, now), c, now)
  {
    hide Settled, Ordinary, MemOrdinary, SetGraceTimer, EndCall;
    SameIsSettled(n, n, c, now);
    if u in n.mem.byUser && n.mem.Live(n.mem.byUser[u]) {
      var d := n.mem.byUser[u];
      EndCallIsSettled(n, d, Missed, now, c);
      var t := GraceTimer(n.mem.issued, d, u);
      var m0 := n.mem.(armed := n.mem.armed + {t}, issued := n.mem.issued + 1);
      GracesStay(m0, d, u, t, c);
      ArmedIsUnseen(n.mem, m0, SetGraceTimer(m0, d, u, t), c);
      MemAlone(n, StartGrace(n, d, u), c, now);
    }
  }

  lemma LoseRingIsSettled(n: Node, d: CallId, u: UserId, now: int, c: CallId)
    ensures Settled(n, LoseRing(n, d, u, now), c, now)
  {
    hide Settled, Ordinary, MemOrdinary, MarkRungGone, EndCall;
    SameIsSettled(n, n, c, now);
    if d in n.mem.calls {
      EndCallIsSettled(n, d, Missed, now, c);
      var n1 := n.(mem := MarkRungGone(n.mem, d, u));
      FlagsStay(n.mem, d, u, c);
      MemAlone(n, n1, c, now);
      EndCallIsSettled(n1, d, Missed, now, c);
      SettledTwice(n, n1, EndCall(n1, d, Missed, now), c, now);
    }
  }

  lemma {:induction false} LoseRingsAreSettled(n: Node, rings: seq<CallId>, u: UserId, now: int, c: CallId)
    ensures Settled(n, LoseRings(n, rings, u, now), c, now)
  {
    hide Settled, LoseRing;
    if rings == [] {
      SameIsSettled(n, n, c, now);
    } else {
      var n1 := LoseRings(n, rings[..|rings|-1], u, now);
      LoseRingsAreSettled(n, rings[..|rings|-1], u, now, c);
      LoseRingIsSettled(n1, rings[|rings|-1], u, now, c);
      SettledTwice(n, n1, LoseRings(n, rings, u, now), c, now);
    }
  }

  lemma DisconnectIsSettled(n: Node, u: UserId, s: SocketId, rings: seq<CallId>, now: int, c: CallId)
    ensures Settled(n, Disconnect(n, u, s, rings, now), c, now)
  {
    hide Settled, LoseOwnCall, LoseRings;
    var n1 := CallListener(n, u, rings, now);
    SameIsSettled(n, n, c, now);
    LoseOwnCallIsSettled(n, u, now, c);
    LoseRingsAreSettled(LoseOwnCall(n, u, now), rings, u, now, c);
    SettledTwice(n, LoseOwnCall(n, u, now), LoseRings(LoseOwnCall(n, u, now), rings, u, now), c, now);
    SameIsSettled(n1, Disconnect(n, u, s, rings, now), c, now);
    SettledTwice(n, n1, Disconnect(n, u, s, rings, now), c, now);
  }

  lemma StaysTwice(m: Mem, m1: Mem, m': Mem, c: CallId)
    requires Stays(m, m1, c) && Stays(m1, m', c)
    ensures Stays(m, m', c)
  {
  }

  lemma {:induction false} KickStays(k: KickState, d: CallId, users: seq<UserId>, c: CallId)
    ensures Stays(k.mem, KickAll(k, d, users).mem, c)
  {
    hide MemOrdinary, MarkLeft, MarkRungGone;
    if users == [] {
      assert MemOrdinary(k.mem, k.mem, c) by { SameIsSettled(Node(k.mem, map[], []), Node(k.mem, map[], []), c, 0); }
    } else {
      var (k1, u) := (KickAll(k, d, users[..|users|-1]), users[|users|-1]);
      KickStays(k, d, users[..|users|-1], c);
      LeftStays(k1.mem, d, u, c);
      FlagsStay(k1.mem, d, u, c);
      if k1.mem.IsJoined(d, u) {
        StaysTwice(k.mem, k1.mem, MarkLeft(k1.mem, d, u), c);
      } else if k1.mem.IsPending(d, u) {
        StaysTwice(k.mem, k1.mem, MarkRungGone(k1.mem, d, u), c);
      }
    }
  }

  lemma KickIsSettled(n: Node, conv: Conversation, users: seq<UserId>, now: int, c: CallId)
    ensures Settled(n, Kick(n, conv, users, now), c, now)
  {
    hide Settled, Ordinary, MemOrdinary, KickAll, EndCall;
    SameIsSettled(n, n, c, now);
    if conv in n.mem.byConversation && n.mem.Live(n.mem.byConversation[conv]) {
      var d := n.mem.byConversation[conv];
      var k := KickAll(KickState(n.mem, {}, false), d, users);
      var n1 := n.(mem := k.mem);
      KickStays(KickState(n.mem, {}, false), d, users, c);
      KickStays(KickState(n.mem, {}, false), d, users, d);
      MemAlone(n, n1, c, now);
      EndCallIsSettled(n1, d, Closing(k.mem.calls[d]), now, c);
      SendIsSettled(n1, StampLeft(d, k.left), c, now);
      SameIsSettled(n1, n1, c, now);
      SettledTwice(n, n1, Kick(n, conv, users, now), c, now);
    }
  }

  lemma RingExpiresIsSettled(n: Node, t: Timer, now: int, c: CallId)
    requires t.RingTimer?
    ensures Settled(n, RingExpires(n, t, now), c, now)
  {
    var n' := RingExpires(n, t, now);
    if RingsOn(n.mem, t.call) { FinalSays(t.call, n.mem.calls[t.call].(ringTimer := None), Missed, now); }
    hide TalkSeconds, Says;
    if RingsOn(n.mem, t.call) && c == t.call { assert EndsNow(n'.batches[|n.batches|], c); }
  }

  lemma GraceExpiresIsSettled(n: Node, t: Timer, now: int, c: CallId)
    requires t.GraceTimer?
    ensures Settled(n, GraceExpires(n, t, now), c, now)
  {
    hide Settled, Ordinary, MemOrdinary, ClearGraceTimer, Depart;
    var fired := Fire(n, t);
    var n1 := fired.(mem := ClearGraceTimer(fired.mem, t.call, t.user));
    GracesStay(fired.mem, t.call, t.user, t, c);
    ArmedIsUnseen(n.mem, fired.mem, n1.mem, c);
    MemAlone(n, n1, c, now);
    if n1.mem.Live(t.call) {
      DepartIsSettled(n1, t.call, t.user, now, c);
      SettledTwice(n, n1, Depart(n1, t.call, t.user, now), c, now);
    }
  }

  predicate IsOrdinary(step: Step) {
    !step.Invites? && !step.BatchCommits? && !step.BatchFails? && !step.HandlerGoesOn? && !step.SweeperFires?
  }

  /** What the app clock shows at a step that reads it. */
  function Clock(step: Step): int {
    match step
    case Disconnects(_, _, _, now) => now
    case Joins(_, _, _, _, now) => now
    case Cancels(_, _, now) => now
    case Rejects(_, _, now) => now
    case Leaves(_, _, now) => now
    case Kicks(_, _, now) => now
    case RingTimesOut(_, now) => now
    case GraceTimesOut(_, now) => now
    case _ => 0
  }

  lemma SettledSteps(s: Server, step: Step, c: CallId)
    requires Enabled(s, step) && IsOrdinary(step) && !step.Joins?
    ensures Settled(s.node, Next(s, step).node, c, Clock(step)) && Next(s, step).db == s.db && Next(s, step).log == s.log
  {
    hide Settled, Ordinary, MemOrdinary, Disconnect, Reject, Depart, Kick, RingExpires, GraceExpires, EndCall, ClearUserGraceTimers;
    var n := s.node;
    SameIsSettled(n, n, c, Clock(step));
    match step
    case Connects(u, k) =>
      ClearedStays(n.mem, u, c);
      MemAlone(n, Connect(n, u, k), c, 0);
    case Disconnects(u, k, rings, now) => DisconnectIsSettled(n, u, k, rings, now, c);
    case Cancels(d, u, now) => EndCallIsSettled(n, d, Missed, now, c);
    case Rejects(d, u, now) => RejectIsSettled(n, d, u, now, c);
    case Leaves(d, u, now) => if n.mem.Live(d) { DepartIsSettled(n, d, u, now, c); }
    case Kicks(conv, users, now) => KickIsSettled(n, conv, users, now, c);
    case RingTimesOut(t, now) => RingExpiresIsSettled(n, t, now, c);
    case GraceTimesOut(t, now) => GraceExpiresIsSettled(n, t, now, c);
  }

  lemma OrdinarySteps(s: Server, step: Step, c: CallId)
    requires Enabled(s, step) && IsOrdinary(step)
    ensures Ordinary(s.node, Next(s, step).node, c) && Next(s, step).db == s.db && Next(s, step).log == s.log
  {
    if step.Joins? {
      hide Ordinary, Join;
      JoinIsOrdinary(s.node, step.c, step.u, step.member, step.now, c);
    } else {
      hide Ordinary, Next;
      SettledSteps(s, step, c);
    }
  }
}
