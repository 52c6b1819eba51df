/**
 Where the code does less than its comments say: concrete runs, step by step, to
 states the invariants had to leave room for. A failed join strands a group; a rollback
 outlives the ring timer; the sweeper leaves participants open; an invite that comes
 back late overwrites the verdict.
 */
module CallCounterexamples {
  import opened Common
  import opened CallModel
  import opened CallSegments
  import opened CallProtocol
  import opened CallSteps
  import opened CallEffects

  lemma Extend(steps: seq<Step>, s: Server, step: Step)
    requires After(steps) == Some(s) && Enabled(s, step)
    ensures After(steps + [step]) == Some(Next(s, step))
  {
    hide Next, Enabled;
    assert (steps + [step])[..|steps + [step]|-1] == steps;
  }

  lemma ReachesNext(s: Server, step: Step)
    requires Reachable(s) && Enabled(s, step)
    ensures Reachable(Next(s, step))
  {
    hide Next, Enabled, After;
    var steps :| After(steps) == Some(s);
    Extend(steps, s, step);
  }

  const ONLINE: map<UserId, set<SocketId>> := map[1 := {1}, 2 := {2}]

  function Ringing1(conv: Conversation): Call {
    Call(conv, Audio, LiveRinging(), 1, 0, None, false, None, map[1 := StarterEntry(0), 2 := RungEntry()])
  }

  function LiveRinging(): LiveStatus { Ringing }

  /** Memory with call 0 alone in it. */
  function One(call: Call, byUser: map<UserId, CallId>, armed: set<Timer>, issued: nat): Mem {
    Mem(map[0 := call], byUser, map[call.conv := 0], armed, issued)
  }

  /** No rollback, no failed stamp and no sweep so far. */
  const QUIET := Log({0}, {}, {}, {}, {})

  /** User 1 has called `conv`, user 2 is rung, the insert is in flight. */
  function Invited(conv: Conversation): Server {
    Server(Node(One(Ringing1(conv), map[1 := 0], {}, 0), ONLINE, [Batch(InsertCall(0, conv, Audio, 1, {2}), InFlight)]),
           Db(map[], map[], []), QUIET)
  }

  function Connected(online: map<UserId, set<SocketId>>): Server {
    INITIAL.(node := INITIAL.node.(online := online))
  }

  lemma FirstSteps()
    ensures Reachable(Connected(ONLINE))
  {
    assert After([]) == Some(INITIAL);
    ConnectWithoutCalls(map[], 1);
    assert INITIAL == Connected(map[]);
    ReachesNext(INITIAL, Connects(1, 1));
    ConnectWithoutCalls(map[1 := {1}], 2);
    ReachesNext(Connected(map[1 := {1}]), Connects(2, 2));
  }

  lemma ConnectWithoutCalls(online: map<UserId, set<SocketId>>, u: UserId)
    requires u !in online
    ensures Enabled(Connected(online), Connects(u, u))
    ensures Next(Connected(online), Connects(u, u)) == Connected(online[u := {u}])
  {
    assert ClearUserGraceTimers(EMPTY, u).calls == map[];
    assert ClearUserGraceTimers(EMPTY, u).armed == {};
    assert SocketsOf(online, u) + {u} == {u};
  }

  lemma InviteStep(conv: Conversation)
    requires conv.Direct? ==> conv.a == 1 && conv.b == 2
    ensures var step := Invites(0, 1, conv, Audio, true, Some({1, 2}), false, 0);
            Enabled(Connected(ONLINE), step) && Next(Connected(ONLINE), step) == Invited(conv)
  {
    hide Create;
    var n := Connected(ONLINE).node;
    assert OnlineOthers(n, 1, {1, 2}) == {2};
    FirstCall(conv);
  }

  lemma FirstCall(conv: Conversation)
    ensures Create(EMPTY, 0, conv, Audio, 1, {2}, 0) == One(Ringing1(conv), map[1 := 0], {}, 0)
  {
    assert NewCall(conv, Audio, 1, {2}, 0).people == map[1 := StarterEntry(0), 2 := RungEntry()];
  }

  lemma InvitedIsReachable(conv: Conversation)
    requires conv.Direct? ==> conv.a == 1 && conv.b == 2
    ensures Reachable(Invited(conv))
  {
    hide Next, Enabled, Reachable, Connected, Invited;
    FirstSteps();
    InviteStep(conv);
    ReachesNext(Connected(ONLINE), Invites(0, 1, conv, Audio, true, Some({1, 2}), false, 0));
  }

  // ----- what the mutators do to that one call -----------------------------------------------------

  lemma OneLeaves(call: Call, byUser: map<UserId, CallId>, armed: set<Timer>, issued: nat, u: UserId)
    requires u in call.people && call.people[u].grace.None? && u in byUser && byUser[u] == 0
    ensures MarkLeft(One(call, byUser, armed, issued), 0, u) ==
              One(call.(people := call.people[u := call.people[u].(left := true)]), byUser - {u}, armed, issued)
  {
    assert call.people[u].(left := true, grace := None) == call.people[u].(left := true);
    assert MarkLeft(One(call, byUser, armed, issued), 0, u).calls ==
      map[0 := call.(people := call.people[u := call.people[u].(left := true)])];
  }

  lemma OneReverts(call: Call, byUser: map<UserId, CallId>, armed: set<Timer>, issued: nat)
    requires call.status.Ongoing? && !call.terminal
    ensures RevertOngoing(One(call, byUser, armed, issued), 0) ==
              One(call.(status := LiveRinging(), answeredAt := None), byUser, armed, issued)
  {
    assert RevertOngoing(One(call, byUser, armed, issued), 0).calls ==
      map[0 := call.(status := LiveRinging(), answeredAt := None)];
  }

  lemma OneIsAnswered(call: Call, byUser: map<UserId, CallId>, armed: set<Timer>, issued: nat, u: UserId, now: int)
    requires u in call.people && call.people[u].joinedAt.None? && call.people[u].grace.None?
    ensures MarkJoined(One(call, byUser, armed, issued), 0, u, now) ==
              One(Seated(call, u, now), byUser[u := 0], armed, issued)
  {
    assert MarkJoined(One(call, byUser, armed, issued), 0, u, now).calls == map[0 := Seated(call, u, now)];
  }

  lemma OneIsArmed(call: Call, byUser: map<UserId, CallId>, armed: set<Timer>, issued: nat, t: Timer)
    ensures SetRingTimer(One(call, byUser, armed, issued), 0, t) == One(call.(ringTimer := Some(t)), byUser, armed, issued)
  {
    assert SetRingTimer(One(call, byUser, armed, issued), 0, t).calls == map[0 := call.(ringTimer := Some(t))];
  }

  lemma OneIsCleared(call: Call, byUser: map<UserId, CallId>, armed: set<Timer>, issued: nat)
    requires call.ringTimer.Some?
    ensures ClearRingTimer(One(call, byUser, armed, issued), 0) ==
              One(call.(ringTimer := None), byUser, armed - {call.ringTimer.value}, issued)
  {
    assert ClearRingTimer(One(call, byUser, armed, issued), 0).calls == map[0 := call.(ringTimer := None)];
  }

  lemma OneIsRemoved(call: Call, u: UserId, issued: nat)
    requires call.ringTimer.None? && (forall w | w in call.people :: call.people[w].grace.None?) && u in call.people
    ensures Remove(One(call, map[u := 0], {}, issued), 0) == Mem(map[], map[], map[], {}, issued)
  {
    var m' := Remove(One(call, map[u := 0], {}, issued), 0);
    assert m'.byUser == map[];
    assert m'.calls == map[];
    assert m'.byConversation == map[];
  }

  // ----- up to an answered call whose join batch is still in flight ------------------------------

  const TIMER := RingTimer(0, 0)

  function State(call: Call, byUser: map<UserId, CallId>, armed: set<Timer>, issued: nat, batches: seq<Batch>, log: Log): Server {
    Server(Node(One(call, byUser, armed, issued), ONLINE, batches),
           Db(map[0 := CallRow(Ringing, None)], FirstRows(0, 1, {2}, 0), []), log)
  }

  function Insert(conv: Conversation, phase: Phase): Batch { Batch(InsertCall(0, conv, Audio, 1, {2}), phase) }

  function FirstJoinBatch(phase: Phase): Batch { Batch(UpsertJoin(0, 2, false, true), phase) }

  function Inserted(conv: Conversation): Server {
    State(Ringing1(conv), map[1 := 0], {}, 0, [Insert(conv, Committed)], QUIET)
  }

  function ArmedCall(conv: Conversation): Call { Ringing1(conv).(ringTimer := Some(TIMER)) }

  function Armed(conv: Conversation): Server {
    State(ArmedCall(conv), map[1 := 0], {TIMER}, 1, [Insert(conv, Closed)], QUIET)
  }

  function LiveOngoing(): LiveStatus { Ongoing }

  function Answered1(conv: Conversation, left1: bool, left2: bool): Call {
    Call(conv, Audio, LiveOngoing(), 1, 0, Some(0), false, Some(TIMER),
         map[1 := StarterEntry(0).(left := left1), 2 := Entry(true, Some(0), left2, false, None)])
  }

  function Answering(conv: Conversation): Server {
    State(Answered1(conv, false, false), map[1 := 0, 2 := 0], {TIMER}, 1,
          [Insert(conv, Closed), FirstJoinBatch(InFlight)], QUIET)
  }

  lemma InsertCommits(conv: Conversation)
    ensures Enabled(Invited(conv), BatchCommits(0, 0)) && Next(Invited(conv), BatchCommits(0, 0)) == Inserted(conv)
  {
    hide One, Ringing1;
    assert map[] + FirstRows(0, 1, {2}, 0) == FirstRows(0, 1, {2}, 0);
  }

  lemma InviteArms(conv: Conversation)
    ensures Enabled(Inserted(conv), HandlerGoesOn(0)) && Next(Inserted(conv), HandlerGoesOn(0)) == Armed(conv)
  {
    hide SetRingTimer;
    assert {} + {TIMER} == {TIMER};
    OneIsArmed(Ringing1(conv), map[1 := 0], {TIMER}, 1, TIMER);
  }

  lemma SecondIsSeated(conv: Conversation)
    ensures Seated(ArmedCall(conv), 2, 0) == Answered1(conv, false, false)
  {
    assert Seated(ArmedCall(conv), 2, 0).people == Answered1(conv, false, false).people;
  }

  lemma SecondAnswers(conv: Conversation)
    requires conv.Direct? ==> conv.a == 1 && conv.b == 2
    ensures Enabled(Armed(conv), Joins(0, 2, conv, true, 0)) && Next(Armed(conv), Joins(0, 2, conv, true, 0)) == Answering(conv)
  {
    hide MarkJoined, Seated;
    OneIsAnswered(ArmedCall(conv), map[1 := 0], {TIMER}, 1, 2, 0);
    SecondIsSeated(conv);
    assert ArmedCall(conv).JoinedSet() == {1};
  }

  lemma InsertedIsReachable(conv: Conversation)
    requires conv.Direct? ==> conv.a == 1 && conv.b == 2
    ensures Reachable(Inserted(conv))
  {
    hide Next, Enabled, Reachable, Invited, Inserted;
    InvitedIsReachable(conv);
    InsertCommits(conv);
    ReachesNext(Invited(conv), BatchCommits(0, 0));
  }

  lemma AnsweringIsReachable(conv: Conversation)
    requires conv.Direct? ==> conv.a == 1 && conv.b == 2
    ensures Reachable(Answering(conv))
  {
    hide Next, Enabled, Reachable, Inserted, Armed, Answering;
    InsertedIsReachable(conv);
    InviteArms(conv);
    ReachesNext(Inserted(conv), HandlerGoesOn(0));
    SecondAnswers(conv);
    ReachesNext(Armed(conv), Joins(0, 2, conv, true, 0));
  }

  // ----- a failed join can strand a group call ------------------------------------------------------

  const GROUP: Conversation := Group(0)

  function StarterGone(phase: Phase): Server {
    State(Answered1(GROUP, true, false), map[2 := 0], {TIMER}, 1,
          [Insert(GROUP, Closed), FirstJoinBatch(phase), Batch(StampLeft(0, {1}), InFlight)], QUIET)
  }

  lemma LeftRecord(conv: Conversation, left1: bool, left2: bool, u: UserId)
    requires u == 1 || u == 2
    ensures var call := Answered1(conv, left1, left2);
            call.(people := call.people[u := call.people[u].(left := true)]) == Answered1(conv, left1 || u == 1, left2 || u == 2)
  {
    var call := Answered1(conv, left1, left2);
    assert call.people[u := call.people[u].(left := true)] == Answered1(conv, left1 || u == 1, left2 || u == 2).people;
  }

  lemma StarterLeaves()
    ensures Enabled(Answering(GROUP), Leaves(0, 1, 0)) && Next(Answering(GROUP), Leaves(0, 1, 0)) == StarterGone(InFlight)
  {
    hide MarkLeft;
    var call := Answered1(GROUP, false, false);
    OneLeaves(call, map[1 := 0, 2 := 0], {TIMER}, 1, 1);
    LeftRecord(GROUP, false, false, 1);
    assert map[1 := 0, 2 := 0] - {1} == map[2 := 0];
    assert Answered1(GROUP, true, false).JoinedSet() == {2};
  }

  lemma JoinFails()
    ensures Enabled(StarterGone(InFlight), BatchFails(1))
    ensures Next(StarterGone(InFlight), BatchFails(1)) == StarterGone(Failed)
  {
    hide One;
  }

  function RungAgain(conv: Conversation, left1: bool): Call {
    Answered1(conv, left1, true).(status := LiveRinging(), answeredAt := None)
  }

  function Stranded(): Server {
    State(RungAgain(GROUP, true), map[], {TIMER}, 1,
          [Insert(GROUP, Closed), FirstJoinBatch(Closed), Batch(StampLeft(0, {1}), InFlight)], QUIET.(stranded := {0}))
  }

  /** User 2's join is rolled back. */
  lemma SecondRollsBack(call: Call, byUser: map<UserId, CallId>, armed: set<Timer>)
    requires call.status.Ongoing? && !call.terminal && 2 in call.people && call.people[2].grace.None?
    requires 2 in byUser && byUser[2] == 0
    ensures RevertOngoing(MarkLeft(One(call, byUser, armed, 1), 0, 2), 0) ==
              One(call.(people := call.people[2 := call.people[2].(left := true)], status := LiveRinging(), answeredAt := None),
                  byUser - {2}, armed, 1)
  {
    hide MarkLeft, RevertOngoing, One;
    OneLeaves(call, byUser, armed, 1, 2);
    OneReverts(call.(people := call.people[2 := call.people[2].(left := true)]), byUser - {2}, armed, 1);
  }

  lemma JoinRollsBack()
    ensures Enabled(StarterGone(Failed), HandlerGoesOn(1))
    ensures Next(StarterGone(Failed), HandlerGoesOn(1)) == Stranded()
  {
    hide MarkLeft, RevertOngoing, Rolled;
    SecondRollsBack(Answered1(GROUP, true, false), map[2 := 0], {TIMER});
    LeftRecord(GROUP, true, false, 2);
    assert map[2 := 0] - {2} == map[];
    GroupIsStranded();
  }

  lemma GroupIsStranded()
    ensures Rolled(QUIET, StarterGone(Failed).node, 1) == QUIET.(stranded := {0})
  {
    assert Answered1(GROUP, true, false).JoinedSet() == {2};
  }

  /**
   The rollback does not ask whether the call still has anybody: a live GROUP call
   can ring on with nobody joined and nobody left to answer.
   */
  lemma FailedJoinStrandsGroup()
    ensures exists s ::
      && Reachable(s) && s.node.mem.Live(0) && s.node.mem.calls[0].conv.Group?
      && s.node.mem.calls[0].status.Ringing?
      && s.node.mem.calls[0].JoinedSet() == {} && s.node.mem.calls[0].PendingSet() == {}
  {
    hide Next, Enabled, Reachable, Answering, StarterGone;
    AnsweringIsReachable(GROUP);
    StarterLeaves();
    ReachesNext(Answering(GROUP), Leaves(0, 1, 0));
    JoinFails();
    ReachesNext(StarterGone(InFlight), BatchFails(1));
    JoinRollsBack();
    ReachesNext(StarterGone(Failed), HandlerGoesOn(1));
    assert Reachable(Stranded());
    assert Stranded().node.mem.calls[0].JoinedSet() == {};
    assert Stranded().node.mem.calls[0].PendingSet() == {};
  }

  // ----- a rollback can outlive the ring timer ---------------------------------------------------------

  const DM: Conversation := Direct(0, 1, 2)

  function RangOut(phase: Phase): Server {
    State(Answered1(DM, false, false).(ringTimer := None), map[1 := 0, 2 := 0], {}, 1,
          [Insert(DM, Closed), FirstJoinBatch(phase)], QUIET)
  }

  lemma RingTimerFires()
    ensures Enabled(Answering(DM), RingTimesOut(TIMER, 0))
    ensures Next(Answering(DM), RingTimesOut(TIMER, 0)) == RangOut(InFlight)
  {
    hide ClearRingTimer;
    assert {TIMER} - {TIMER} == {} && {} - {TIMER} == {};
    OneIsCleared(Answered1(DM, false, false), map[1 := 0, 2 := 0], {}, 1);
  }

  lemma DirectJoinFails()
    ensures Enabled(RangOut(InFlight), BatchFails(1))
    ensures Next(RangOut(InFlight), BatchFails(1)) == RangOut(Failed)
  {
    hide One;
  }

  function Timeless(): Server {
    State(RungAgain(DM, false).(ringTimer := None), map[1 := 0], {}, 1, [Insert(DM, Closed), FirstJoinBatch(Closed)],
          QUIET.(untimed := {0}))
  }

  lemma DirectJoinRollsBack()
    ensures Enabled(RangOut(Failed), HandlerGoesOn(1))
    ensures Next(RangOut(Failed), HandlerGoesOn(1)) == Timeless()
  {
    hide MarkLeft, RevertOngoing, Rolled;
    SecondRollsBack(Answered1(DM, false, false).(ringTimer := None), map[1 := 0, 2 := 0], {});
    LeftRecord(DM, false, false, 2);
    assert map[1 := 0, 2 := 0] - {2} == map[1 := 0];
    DirectIsUntimed();
  }

  lemma DirectIsUntimed()
    ensures Rolled(QUIET, RangOut(Failed).node, 1) == QUIET.(untimed := {0})
  {
  }

  lemma TimelessIsReachable()
    ensures Reachable(Timeless())
  {
    hide Next, Enabled, Reachable, Answering, RangOut;
    AnsweringIsReachable(DM);
    RingTimerFires();
    ReachesNext(Answering(DM), RingTimesOut(TIMER, 0));
    DirectJoinFails();
    ReachesNext(RangOut(InFlight), BatchFails(1));
    DirectJoinRollsBack();
    ReachesNext(RangOut(Failed), HandlerGoesOn(1));
  }

  /**
   A live call can ring with no ring timer armed and no handler left to end it,
   contrary to the sweeper's premise that nothing legitimate rings past its timer.
   */
  lemma RollbackOutlivesRingTimer()
    ensures exists s ::
      && Reachable(s) && s.node.mem.Live(0) && s.node.mem.calls[0].status.Ringing?
      && s.node.mem.armed == {} && s.node.mem.calls[0].PendingSet() == {}
      && forall b | b in s.node.batches :: b.phase.Closed?
  {
    hide Reachable;
    TimelessIsReachable();
    assert Timeless().node.mem.calls[0].PendingSet() == {};
  }

  // ----- the sweeper leaves participants open --------------------------------------------------------------

  const LATER: int := STUCK_RINGING_MS + 1

  function SweptAway(): Server {
    var s := Timeless();
    s.(node := Node(Mem(map[], map[], map[], {}, 1), ONLINE, s.node.batches + [Batch(StampSwept(0), InFlight)]),
       log := s.log.(swept := {0}))
  }

  lemma SweeperTakesIt()
    ensures Enabled(Timeless(), SweeperFires(0, LATER)) && Next(Timeless(), SweeperFires(0, LATER)) == SweptAway()
  {
    hide Remove;
    OneIsRemoved(RungAgain(DM, false).(ringTimer := None), 1, 1);
  }

  function SweptRow(phase: Phase): Server {
    var s := SweptAway();
    s.(node := s.node.(batches := Timeless().node.batches + [Batch(StampSwept(0), phase)]),
       db := s.db.(rows := map[0 := CallRow(Missed, Some(LATER))]))
  }

  lemma SweepCommits()
    ensures Enabled(SweptAway(), BatchCommits(2, LATER)) && Next(SweptAway(), BatchCommits(2, LATER)) == SweptRow(Committed)
  {
  }

  lemma SweepCloses()
    ensures Enabled(SweptRow(Committed), HandlerGoesOn(2)) && Next(SweptRow(Committed), HandlerGoesOn(2)) == SweptRow(Closed)
  {
  }

  /** The sweeper stamps the call but nobody's left_at: its calls are settled only by half. */
  lemma SweeperLeavesParticipantsOpen()
    ensures exists s ::
      && Reachable(s) && 0 !in s.node.mem.calls && (forall b | b in s.node.batches :: b.phase.Closed?)
      && (0, 1) in s.db.parts && s.db.parts[(0, 1)].joinedAt.Some? && s.db.parts[(0, 1)].leftAt.None?
  {
    TimelessIsReachable();
    hide Next, Enabled, Reachable;
    SweeperTakesIt();
    ReachesNext(Timeless(), SweeperFires(0, LATER));
    SweepCommits();
    ReachesNext(SweptAway(), BatchCommits(2, LATER));
    SweepCloses();
    ReachesNext(SweptRow(Committed), HandlerGoesOn(2));
    assert Reachable(SweptRow(Closed));
  }

  // ----- an invite that comes back late overwrites the verdict -----------------------------------------------

  /**
   A join may land while the invite's own handler is still to go on; when that call is over
   by then, the handler takes it for one nobody answered, and stamps MISSED on a row whose
   bubble says ENDED.
   */
  lemma LateInviteOverwritesVerdict()
    ensures exists s, b ::
      && Reachable(s) && b in s.db.bubbles && b.verdict.Ended?
      && b.call in s.db.rows && s.db.rows[b.call].status.Missed?
  {
    hide Next, Enabled, Reachable, Inserted;
    InsertedIsReachable(DM);
    var s1 := PeerJoins();
    var s2 := StarterHangsUp(s1);
    var s3, b := VerdictLands(s2);
    OrphanLands(s3, b);
  }

  /** The invite's batch has committed, and its handler is still to go on. */
  ghost predicate InviteWaits(s: Server) {
    && Reachable(s) && 0 < |s.node.batches| && s.node.batches[0] == Insert(DM, Committed) && 0 in s.db.rows
  }

  lemma PeerJoins() returns (s: Server)
    ensures InviteWaits(s) && s.node.mem.Live(0) && s.node.mem.calls[0].status.Ongoing? && s.node.mem.calls[0].conv == DM
    ensures s.node.mem.IsJoined(0, 1)
  {
    hide Reachable;
    InsertedIsReachable(DM);
    var s0 := Inserted(DM);
    assert s0.node.mem.calls[0].JoinedSet() == {1};
    JoinSeats(s0, 0, 2, DM, true, 0);
    ReachesNext(s0, Joins(0, 2, DM, true, 0));
    s := Next(s0, Joins(0, 2, DM, true, 0));
    hide Next;
    assert s.node.mem.calls[0].JoinedSet() == {1, 2};
    assert 1 in s.node.mem.calls[0].JoinedSet();
  }

  lemma StarterHangsUp(s: Server) returns (s': Server)
    requires InviteWaits(s) && s.node.mem.Live(0) && s.node.mem.calls[0].status.Ongoing? && s.node.mem.calls[0].conv == DM
    requires s.node.mem.IsJoined(0, 1)
    ensures InviteWaits(s') && !s'.node.mem.Live(0) && |s'.node.batches| > 1
    ensures var b := s'.node.batches[|s'.node.batches|-1]; b.op.Finalize? && b.op.call == 0 && b.op.verdict.Ended? && b.phase.InFlight?
  {
    hide Reachable, Next, Says;
    LeaveDeparts(s, 0, 1, 60000);
    assert Enabled(s, Leaves(0, 1, 60000));
    ReachesNext(s, Leaves(0, 1, 60000));
    s' := Next(s, Leaves(0, 1, 60000));
    assert s'.node.batches[..|s.node.batches|][0] == s'.node.batches[0];
  }

  lemma VerdictLands(s: Server) returns (s': Server, b: Bubble)
    requires InviteWaits(s) && !s.node.mem.Live(0) && |s.node.batches| > 1
    requires var last := s.node.batches[|s.node.batches|-1]; last.op.Finalize? && last.op.call == 0 && last.op.verdict.Ended? && last.phase.InFlight?
    ensures InviteWaits(s') && !s'.node.mem.Live(0) && b in s'.db.bubbles && b.call == 0 && b.verdict.Ended?
  {
    hide Reachable;
    var step := BatchCommits(|s.node.batches| - 1, 60000);
    ReachesNext(s, step);
    s' := Next(s, step);
    b := s'.db.bubbles[|s'.db.bubbles|-1];
  }

  lemma OrphanLands(s: Server, b: Bubble)
    requires InviteWaits(s) && !s.node.mem.Live(0) && b in s.db.bubbles && b.call == 0 && b.verdict.Ended?
    ensures exists s' :: Reachable(s') && b in s'.db.bubbles && 0 in s'.db.rows && s'.db.rows[0].status.Missed?
  {
    hide Reachable, Rolled;
    ReachesNext(s, HandlerGoesOn(0));
    var s1 := Next(s, HandlerGoesOn(0));
    var step := BatchCommits(|s.node.batches|, 60000);
    assert s1.node.batches[|s.node.batches|] == Batch(StampOrphan(0), InFlight);
    ReachesNext(s1, step);
    assert Next(s1, step).db.rows[0].status.Missed?;
  }
}
