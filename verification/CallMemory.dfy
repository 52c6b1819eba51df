/**
 What every run keeps in memory: the three maps agree with the records, nobody is
 in two calls, no call exceeds its four seats, and no timer outlives what it guards.
 Proved mutator by mutator, then segment by segment. The event loop's side of timers is
 kept beside the records: a timer is armed exactly while some record holds its handle,
 and a grace only while its user is joined.
 */
module CallMemory {
  import opened Common
  import opened CallModel
  import opened CallSegments

  // ----- the invariant ---------------------------------------------------------

  /** byUser lists exactly the joined users. */
  ghost predicate UsersAgree(m: Mem) {
    && (forall u | u in m.byUser :: m.IsJoined(m.byUser[u], u))
    && (forall c, u | m.IsJoined(c, u) :: u in m.byUser && m.byUser[u] == c)
  }

  /** byConversation and calls are inverse to each other. */
  ghost predicate ConversationsAgree(m: Mem) {
    && (forall v | v in m.byConversation :: m.byConversation[v] in m.calls && m.calls[m.byConversation[v]].conv == v)
    && (forall c | c in m.calls :: m.calls[c].conv in m.byConversation && m.byConversation[m.calls[c].conv] == c)
  }

  /** A call has at most four joined, its starter has an entry, and it is answered exactly when ongoing. */
  ghost predicate CallOk(call: Call) {
    && |call.JoinedSet()| <= MAX_JOINED
    && call.startedBy in call.people
    && (call.answeredAt.Some? <==> call.status.Ongoing?)
  }

  ghost predicate AllCallsOk(m: Mem) {
    forall c | c in m.calls :: CallOk(m.calls[c])
  }

  predicate RingHandle(m: Mem, c: CallId, t: Timer) {
    c in m.calls && m.calls[c].ringTimer == Some(t)
  }

  predicate GraceHandle(m: Mem, c: CallId, u: UserId, t: Timer) {
    c in m.calls && u in m.calls[c].people && m.calls[c].people[u].grace == Some(t)
  }

  /** Armed timers and stored handles are the same things, and a grace guards a joined user. */
  ghost predicate TimersAgree(m: Mem) {
    && (forall t | t in m.armed :: t.id < m.issued)
    && (forall t | t in m.armed && t.RingTimer? :: RingHandle(m, t.call, t))
    && (forall t | t in m.armed && t.GraceTimer? :: GraceHandle(m, t.call, t.user, t) && m.IsJoined(t.call, t.user))
    && (forall c, t | RingHandle(m, c, t) :: t in m.armed && t.RingTimer? && t.call == c)
    && (forall c, u, t | GraceHandle(m, c, u, t) :: t in m.armed && t.GraceTimer? && t.call == c && t.user == u)
  }

  ghost predicate MemInv(m: Mem) {
    && UsersAgree(m)
    && ConversationsAgree(m)
    && AllCallsOk(m)
    && TimersAgree(m)
  }

  // ----- small facts -------------------------------------------------------------

  lemma SubsetCard<T>(a: set<T>, b: set<T>)
    requires a <= b
    ensures |a| <= |b|
  {
    if a != {} {
      var x :| x in a;
      SubsetCard(a - {x}, b - {x});
    }
  }

  /** Only record `c` differs between the two memories. */
  ghost predicate OnlyAt(m: Mem, m': Mem, c: CallId) {
    && m'.calls.Keys == m.calls.Keys
    && c in m.calls
    && (forall d | d in m.calls && d != c :: m'.calls[d] == m.calls[d])
  }

  lemma UsersStay(m: Mem, m': Mem)
    requires UsersAgree(m) && m'.byUser == m.byUser
    requires forall d, w :: m'.IsJoined(d, w) <==> m.IsJoined(d, w)
    ensures UsersAgree(m')
  {
    forall u | u in m'.byUser ensures m'.IsJoined(m'.byUser[u], u) { assert m.IsJoined(m.byUser[u], u); }
  }

  lemma ConversationsStay(m: Mem, m': Mem)
    requires ConversationsAgree(m) && m'.byConversation == m.byConversation
    requires m'.calls.Keys == m.calls.Keys
    requires forall d | d in m.calls :: m'.calls[d].conv == m.calls[d].conv
    ensures ConversationsAgree(m')
  {
  }

  /** Handles that stay, stay armed; a grace that stays armed still guards a joined user. */
  lemma TimersStay(m: Mem, m': Mem, gone: set<Timer>)
    requires TimersAgree(m) && m'.armed == m.armed - gone && m'.issued >= m.issued
    requires forall d, t | RingHandle(m', d, t) :: RingHandle(m, d, t) && t !in gone
    requires forall d, w, t | GraceHandle(m', d, w, t) :: GraceHandle(m, d, w, t) && t !in gone
    requires forall t | t in m'.armed && RingHandle(m, t.call, t) :: RingHandle(m', t.call, t)
    requires forall t | t in m'.armed && t.GraceTimer? && GraceHandle(m, t.call, t.user, t) && m.IsJoined(t.call, t.user) ::
               GraceHandle(m', t.call, t.user, t) && m'.IsJoined(t.call, t.user)
    ensures TimersAgree(m')
  {
  }

  // ----- create --------------------------------------------------------------------

  lemma CreateUsers(m: Mem, c: CallId, conv: Conversation, kind: Kind, starter: UserId, rung: set<UserId>, now: int)
    requires UsersAgree(m) && c !in m.calls
    requires starter !in m.byUser && starter !in rung
    ensures UsersAgree(Create(m, c, conv, kind, starter, rung, now))
  {
    var m' := Create(m, c, conv, kind, starter, rung, now);
    forall d, u | m'.IsJoined(d, u) ensures m.IsJoined(d, u) || (d == c && u == starter) {}
    forall u | u in m.byUser ensures m'.IsJoined(m.byUser[u], u) { assert m.IsJoined(m.byUser[u], u); }
  }

  lemma CreateTimers(m: Mem, c: CallId, conv: Conversation, kind: Kind, starter: UserId, rung: set<UserId>, now: int)
    requires TimersAgree(m) && c !in m.calls
    ensures TimersAgree(Create(m, c, conv, kind, starter, rung, now))
  {
    var m' := Create(m, c, conv, kind, starter, rung, now);
    forall d, t | RingHandle(m', d, t) ensures RingHandle(m, d, t) {}
    forall d, u, t | GraceHandle(m', d, u, t) ensures GraceHandle(m, d, u, t) {}
    TimersStay(m, m', {});
  }

  lemma CreateConversations(m: Mem, c: CallId, conv: Conversation, kind: Kind, starter: UserId, rung: set<UserId>, now: int)
    requires ConversationsAgree(m) && c !in m.calls && conv !in m.byConversation
    ensures ConversationsAgree(Create(m, c, conv, kind, starter, rung, now))
  {
  }

  lemma CreateCalls(m: Mem, c: CallId, conv: Conversation, kind: Kind, starter: UserId, rung: set<UserId>, now: int)
    requires AllCallsOk(m) && starter !in rung
    ensures AllCallsOk(Create(m, c, conv, kind, starter, rung, now))
  {
    assert NewCall(conv, kind, starter, rung, now).JoinedSet() == {starter};
  }

  lemma CreateKeeps(m: Mem, c: CallId, conv: Conversation, kind: Kind, starter: UserId, rung: set<UserId>, now: int)
    requires MemInv(m) && c !in m.calls && conv !in m.byConversation
    requires starter !in m.byUser && starter !in rung
    ensures MemInv(Create(m, c, conv, kind, starter, rung, now))
  {
    hide UsersAgree, TimersAgree, ConversationsAgree, AllCallsOk;
    CreateUsers(m, c, conv, kind, starter, rung, now);
    CreateTimers(m, c, conv, kind, starter, rung, now);
    CreateConversations(m, c, conv, kind, starter, rung, now);
    CreateCalls(m, c, conv, kind, starter, rung, now);
  }

  // ----- markJoined ------------------------------------------------------------------

  lemma MarkJoinedRelation(m: Mem, c: CallId, u: UserId, now: int)
    requires c in m.calls
    ensures var m' := MarkJoined(m, c, u, now);
            && OnlyAt(m, m', c)
            && (forall d, w :: m'.IsJoined(d, w) <==> m.IsJoined(d, w) || (d == c && w == u))
            && m'.calls[c].JoinedSet() == m.calls[c].JoinedSet() + {u}
            && (m'.byUser == m.byUser[u := c] || (m.IsJoined(c, u) && m'.byUser == m.byUser))
            && m'.byConversation == m.byConversation
            && m'.calls[c].conv == m.calls[c].conv
  {
    var m' := MarkJoined(m, c, u, now);
    assert m'.calls[c].JoinedSet() == m.calls[c].JoinedSet() + {u};
  }

  lemma MarkJoinedUsers(m: Mem, m': Mem, c: CallId, u: UserId)
    requires UsersAgree(m)
    requires u in m.byUser ==> m.byUser[u] == c
    requires forall d, w :: m'.IsJoined(d, w) <==> m.IsJoined(d, w) || (d == c && w == u)
    requires m'.byUser == m.byUser[u := c] || (m.IsJoined(c, u) && m'.byUser == m.byUser)
    ensures UsersAgree(m')
  {
    forall w | w in m'.byUser ensures m'.IsJoined(m'.byUser[w], w) {
      if w in m.byUser { assert m.IsJoined(m.byUser[w], w); }
    }
  }

  lemma MarkJoinedTimers(m: Mem, c: CallId, u: UserId, now: int)
    requires TimersAgree(m) && c in m.calls
    ensures TimersAgree(MarkJoined(m, c, u, now))
  {
    var m' := MarkJoined(m, c, u, now);
    var g := EntryOf(m, c, u).grace;
    assert g.Some? ==> GraceHandle(m, c, u, g.value);
    forall d, t | RingHandle(m', d, t) ensures RingHandle(m, d, t) {}
    forall d, w, t | GraceHandle(m', d, w, t) ensures GraceHandle(m, d, w, t) && !(d == c && w == u) {}
    TimersStay(m, m', if g.Some? then {g.value} else {});
  }

  lemma MarkJoinedCalls(m: Mem, c: CallId, u: UserId, now: int)
    requires AllCallsOk(m) && c in m.calls
    requires !m.IsJoined(c, u) ==> |m.calls[c].JoinedSet()| < MAX_JOINED
    ensures AllCallsOk(MarkJoined(m, c, u, now))
  {
    assert MarkJoined(m, c, u, now).calls[c].JoinedSet() == m.calls[c].JoinedSet() + {u};
    assert m.IsJoined(c, u) ==> u in m.calls[c].JoinedSet();
  }

  lemma MarkJoinedKeeps(m: Mem, c: CallId, u: UserId, now: int)
    requires MemInv(m)
    requires u in m.byUser ==> m.byUser[u] == c
    requires c in m.calls && !m.IsJoined(c, u) ==> |m.calls[c].JoinedSet()| < MAX_JOINED
    ensures MemInv(MarkJoined(m, c, u, now))
  {
    hide UsersAgree, TimersAgree, ConversationsAgree, AllCallsOk;
    if c in m.calls {
      MarkJoinedCalls(m, c, u, now);
      MarkJoinedRelation(m, c, u, now);
      MarkJoinedUsers(m, MarkJoined(m, c, u, now), c, u);
      MarkJoinedTimers(m, c, u, now);
      ConversationsStay(m, MarkJoined(m, c, u, now));
    }
  }

  // ----- markLeft ------------------------------------------------------------------------

  lemma MarkLeftRelation(m: Mem, c: CallId, u: UserId)
    requires c in m.calls
    ensures var m' := MarkLeft(m, c, u);
            && OnlyAt(m, m', c)
            && (forall d, w :: m'.IsJoined(d, w) <==> m.IsJoined(d, w) && !(d == c && w == u))
            && m'.calls[c].JoinedSet() == m.calls[c].JoinedSet() - {u}
            && m'.byUser == (if u in m.byUser && m.byUser[u] == c then m.byUser - {u} else m.byUser)
            && m'.byConversation == m.byConversation
            && m'.calls[c] == m.calls[c].(people := m'.calls[c].people)
            && m'.calls[c].people.Keys == m.calls[c].people.Keys
  {
    var m' := MarkLeft(m, c, u);
    MarkLeftEntries(m, c, u);
    assert m'.calls[c].JoinedSet() == m.calls[c].JoinedSet() - {u} by { hide MarkLeft; }
    assert forall d, w :: m'.IsJoined(d, w) <==> m.IsJoined(d, w) && !(d == c && w == u) by { hide MarkLeft; }
  }

  lemma MarkLeftEntries(m: Mem, c: CallId, u: UserId)
    requires c in m.calls
    ensures var m' := MarkLeft(m, c, u);
            && OnlyAt(m, m', c)
            && m'.calls[c] == m.calls[c].(people := m'.calls[c].people)
            && m'.calls[c].people.Keys == m.calls[c].people.Keys
            && forall w | w in m.calls[c].people ::
                 if w == u then m'.calls[c].people[w].left
                 else m'.calls[c].people[w] == m.calls[c].people[w]
  {
  }

  lemma MarkLeftUsers(m: Mem, m': Mem, c: CallId, u: UserId)
    requires UsersAgree(m)
    requires forall d, w :: m'.IsJoined(d, w) <==> m.IsJoined(d, w) && !(d == c && w == u)
    requires m'.byUser == if u in m.byUser && m.byUser[u] == c then m.byUser - {u} else m.byUser
    ensures UsersAgree(m')
  {
    forall w | w in m'.byUser ensures m'.IsJoined(m'.byUser[w], w) { assert m.IsJoined(m.byUser[w], w); }
  }

  lemma MarkLeftTimers(m: Mem, c: CallId, u: UserId)
    requires TimersAgree(m) && c in m.calls
    ensures TimersAgree(MarkLeft(m, c, u))
  {
    var m' := MarkLeft(m, c, u);
    var g := EntryOf(m, c, u).grace;
    assert g.Some? ==> GraceHandle(m, c, u, g.value);
    forall d, t | RingHandle(m', d, t) ensures RingHandle(m, d, t) {}
    forall d, w, t | GraceHandle(m', d, w, t) ensures GraceHandle(m, d, w, t) && !(d == c && w == u) {}
    TimersStay(m, m', if g.Some? then {g.value} else {});
  }

  lemma MarkLeftCalls(m: Mem, c: CallId, u: UserId)
    requires AllCallsOk(m) && c in m.calls
    ensures AllCallsOk(MarkLeft(m, c, u))
  {
    MarkLeftRelation(m, c, u);
    hide MarkLeft, Call.JoinedSet, Mem.IsJoined;
    SubsetCard(m.calls[c].JoinedSet() - {u}, m.calls[c].JoinedSet());
  }

  lemma MarkLeftKeeps(m: Mem, c: CallId, u: UserId)
    requires MemInv(m)
    ensures MemInv(MarkLeft(m, c, u))
  {
    hide UsersAgree, TimersAgree, ConversationsAgree, AllCallsOk;
    if c in m.calls {
      MarkLeftRelation(m, c, u);
      MarkLeftUsers(m, MarkLeft(m, c, u), c, u);
      MarkLeftTimers(m, c, u);
      ConversationsStay(m, MarkLeft(m, c, u));
      MarkLeftCalls(m, c, u);
    }
  }

  // ----- mutators that touch neither who is joined nor any handle ---------------------------

  ghost predicate SameShape(call: Call, call': Call) {
    && call'.conv == call.conv && call'.startedBy == call.startedBy && call'.ringTimer == call.ringTimer
    && call'.people.Keys == call.people.Keys
    && (forall w | w in call.people ::
          call'.people[w].grace == call.people[w].grace && call'.people[w].Joined() == call.people[w].Joined())
  }

  lemma FlagsUsers(m: Mem, m': Mem, c: CallId)
    requires UsersAgree(m) && OnlyAt(m, m', c) && m' == m.(calls := m'.calls) && SameShape(m.calls[c], m'.calls[c])
    ensures UsersAgree(m')
  {
    UsersStay(m, m');
  }

  lemma FlagsTimers(m: Mem, m': Mem, c: CallId)
    requires TimersAgree(m) && OnlyAt(m, m', c) && m' == m.(calls := m'.calls) && SameShape(m.calls[c], m'.calls[c])
    ensures TimersAgree(m')
  {
    forall d, t | RingHandle(m', d, t) ensures RingHandle(m, d, t) {}
    forall d, w, t | GraceHandle(m', d, w, t) ensures GraceHandle(m, d, w, t) {}
    TimersStay(m, m', {});
  }

  lemma FlagsCalls(m: Mem, m': Mem, c: CallId)
    requires AllCallsOk(m) && OnlyAt(m, m', c) && SameShape(m.calls[c], m'.calls[c])
    requires m'.calls[c].answeredAt.Some? <==> m'.calls[c].status.Ongoing?
    ensures AllCallsOk(m')
  {
    assert m'.calls[c].JoinedSet() == m.calls[c].JoinedSet();
    assert CallOk(m.calls[c]);
  }

  lemma FlagsKeep(m: Mem, m': Mem, c: CallId)
    requires MemInv(m) && OnlyAt(m, m', c) && m' == m.(calls := m'.calls) && SameShape(m.calls[c], m'.calls[c])
    requires m'.calls[c].answeredAt.Some? <==> m'.calls[c].status.Ongoing?
    ensures MemInv(m')
  {
    hide UsersAgree, TimersAgree, ConversationsAgree, AllCallsOk;
    FlagsUsers(m, m', c);
    FlagsTimers(m, m', c);
    ConversationsStay(m, m');
    FlagsCalls(m, m', c);
  }

  lemma RevertOngoingKeeps(m: Mem, c: CallId)
    requires MemInv(m)
    ensures MemInv(RevertOngoing(m, c))
  {
    hide UsersAgree, TimersAgree, ConversationsAgree;
    if c in m.calls { FlagsKeep(m, RevertOngoing(m, c), c); }
  }

  lemma MarkRejectedKeeps(m: Mem, c: CallId, u: UserId)
    requires MemInv(m)
    ensures MemInv(MarkRejected(m, c, u))
  {
    hide UsersAgree, TimersAgree, ConversationsAgree;
    if c in m.calls { FlagsKeep(m, MarkRejected(m, c, u), c); }
  }

  lemma MarkRungGoneKeeps(m: Mem, c: CallId, u: UserId)
    requires MemInv(m)
    ensures MemInv(MarkRungGone(m, c, u))
  {
    hide UsersAgree, TimersAgree, ConversationsAgree;
    if c in m.calls { FlagsKeep(m, MarkRungGone(m, c, u), c); }
  }

  lemma BeginTerminalKeeps(m: Mem, c: CallId)
    requires MemInv(m)
    ensures MemInv(BeginTerminal(m, c))
  {
    hide UsersAgree, TimersAgree, ConversationsAgree;
    if c in m.calls { FlagsKeep(m, BeginTerminal(m, c), c); }
  }

  // ----- remove ------------------------------------------------------------------------------

  lemma RemoveUsers(m: Mem, c: CallId)
    requires UsersAgree(m) && c in m.calls
    ensures UsersAgree(Remove(m, c))
  {
    var m' := Remove(m, c);
    forall u | u in m'.byUser ensures m'.IsJoined(m'.byUser[u], u) { assert m.IsJoined(m.byUser[u], u); }
    forall d, w | m'.IsJoined(d, w) ensures m.IsJoined(d, w) && d != c {}
  }

  lemma RemoveConversations(m: Mem, c: CallId)
    requires ConversationsAgree(m) && c in m.calls
    ensures ConversationsAgree(Remove(m, c))
  {
  }

  /** A record's handles are exactly the armed timers that name it. */
  lemma HandlesAreItsTimers(m: Mem, c: CallId, t: Timer)
    requires TimersAgree(m) && c in m.calls
    ensures t in HandlesOf(m.calls[c]) <==> t in m.armed && t.call == c
  {
    var call := m.calls[c];
    if t in m.armed && t.call == c {
      assert t.RingTimer? ==> RingHandle(m, c, t);
      assert t.GraceTimer? ==> GraceHandle(m, c, t.user, t);
    }
    if t in HandlesOf(call) {
      if call.ringTimer == Some(t) {
        assert RingHandle(m, c, t);
      } else {
        var w :| w in call.people && call.people[w].grace == Some(t);
        assert GraceHandle(m, c, w, t);
      }
    }
  }

  lemma RemoveTimers(m: Mem, c: CallId)
    requires TimersAgree(m) && c in m.calls
    ensures TimersAgree(Remove(m, c))
  {
    var m' := Remove(m, c);
    var gone := HandlesOf(m.calls[c]);
    forall t ensures t in gone <==> t in m.armed && t.call == c { HandlesAreItsTimers(m, c, t); }
    forall d, t | RingHandle(m', d, t) ensures RingHandle(m, d, t) && d != c {}
    forall d, w, t | GraceHandle(m', d, w, t) ensures GraceHandle(m, d, w, t) && d != c {}
    TimersStay(m, m', gone);
  }

  lemma RemoveKeeps(m: Mem, c: CallId)
    requires MemInv(m)
    ensures MemInv(Remove(m, c))
  {
    if c in m.calls {
      RemoveUsers(m, c);
      RemoveConversations(m, c);
      RemoveTimers(m, c);
    }
  }

  // ----- a new socket clears the user's graces ---------------------------------------------------

  lemma ClearGracesRelation(m: Mem, u: UserId)
    ensures var m' := ClearUserGraceTimers(m, u);
            && (forall c | c in m.calls :: m'.calls[c].JoinedSet() == m.calls[c].JoinedSet())
            && (forall d, w :: m'.IsJoined(d, w) <==> m.IsJoined(d, w))
  {
    var m' := ClearUserGraceTimers(m, u);
    forall c | c in m.calls ensures m'.calls[c].JoinedSet() == m.calls[c].JoinedSet() {}
  }

  lemma GracesAreItsTimers(m: Mem, u: UserId, t: Timer)
    requires TimersAgree(m)
    ensures t in GracesOf(m, u) <==> t in m.armed && t.GraceTimer? && t.user == u
  {
    if t in m.armed && t.GraceTimer? && t.user == u { assert GraceHandle(m, t.call, u, t); }
    if t in GracesOf(m, u) {
      var c :| c in m.calls && u in m.calls[c].people && m.calls[c].people[u].grace == Some(t);
      assert GraceHandle(m, c, u, t);
    }
  }

  lemma ClearGracesTimers(m: Mem, u: UserId)
    requires TimersAgree(m)
    ensures TimersAgree(ClearUserGraceTimers(m, u))
  {
    var m' := ClearUserGraceTimers(m, u);
    var gone := GracesOf(m, u);
    forall t ensures t in gone <==> t in m.armed && t.GraceTimer? && t.user == u { GracesAreItsTimers(m, u, t); }
    forall d, t | RingHandle(m', d, t) ensures RingHandle(m, d, t) {}
    forall d, w, t | GraceHandle(m', d, w, t) ensures GraceHandle(m, d, w, t) && w != u {}
    TimersStay(m, m', gone);
  }

  lemma ClearGracesCalls(m: Mem, u: UserId)
    requires AllCallsOk(m)
    ensures AllCallsOk(ClearUserGraceTimers(m, u))
  {
    ClearGracesRelation(m, u);
  }

  lemma ClearUserGraceTimersKeeps(m: Mem, u: UserId)
    requires MemInv(m)
    ensures MemInv(ClearUserGraceTimers(m, u))
  {
    hide UsersAgree, TimersAgree, ConversationsAgree, AllCallsOk;
    ClearGracesRelation(m, u);
    ClearGracesTimers(m, u);
    UsersStay(m, ClearUserGraceTimers(m, u));
    ClearGracesCalls(m, u);
    ConversationsStay(m, ClearUserGraceTimers(m, u));
  }

  // ----- timers firing and being armed -------------------------------------------------------------

  /** Only timer bookkeeping differs: same maps, same people, same flags. */
  ghost predicate OnlyTimers(m: Mem, m': Mem) {
    && m'.byUser == m.byUser && m'.byConversation == m.byConversation
    && m'.calls.Keys == m.calls.Keys
    && (forall c | c in m.calls :: SameButTimers(m.calls[c], m'.calls[c]))
  }

  ghost predicate SameButTimers(call: Call, call': Call) {
    && call' == call.(ringTimer := call'.ringTimer, people := call'.people)
    && call'.people.Keys == call.people.Keys
    && (forall w | w in call.people :: call'.people[w] == call.people[w].(grace := call'.people[w].grace))
  }

  lemma OnlyTimersRelation(m: Mem, m': Mem)
    requires OnlyTimers(m, m')
    ensures forall d, w :: m'.IsJoined(d, w) <==> m.IsJoined(d, w)
    ensures forall d, w :: m'.IsPending(d, w) <==> m.IsPending(d, w)
    ensures forall d | d in m.calls :: m'.calls[d].conv == m.calls[d].conv
    ensures forall d | d in m.calls :: m'.calls[d].JoinedSet() == m.calls[d].JoinedSet()
    ensures forall d | d in m.calls :: m'.calls[d].PendingSet() == m.calls[d].PendingSet()
  {
    forall d | d in m.calls
      ensures m'.calls[d].JoinedSet() == m.calls[d].JoinedSet() && m'.calls[d].PendingSet() == m.calls[d].PendingSet()
    {
      assert SameButTimers(m.calls[d], m'.calls[d]);
    }
    forall d, w ensures m'.IsJoined(d, w) <==> m.IsJoined(d, w) {
      assert d in m.calls ==> SameButTimers(m.calls[d], m'.calls[d]);
    }
    forall d, w ensures m'.IsPending(d, w) <==> m.IsPending(d, w) {
      assert d in m.calls ==> SameButTimers(m.calls[d], m'.calls[d]);
    }
  }

  lemma OnlyTimersCalls(m: Mem, m': Mem)
    requires AllCallsOk(m) && OnlyTimers(m, m')
    ensures AllCallsOk(m')
  {
    OnlyTimersRelation(m, m');
    forall c | c in m.calls ensures CallOk(m'.calls[c]) {
      assert CallOk(m.calls[c]) && SameButTimers(m.calls[c], m'.calls[c]);
    }
  }

  lemma OnlyTimersKeeps(m: Mem, m': Mem)
    requires MemInv(m) && OnlyTimers(m, m') && TimersAgree(m')
    ensures MemInv(m')
  {
    hide UsersAgree, TimersAgree, ConversationsAgree, AllCallsOk;
    OnlyTimersRelation(m, m');
    OnlyTimersCalls(m, m');
    UsersStay(m, m');
    ConversationsStay(m, m');
  }

  lemma RingFiresTimers(m: Mem, t: Timer)
    requires TimersAgree(m) && t in m.armed && t.RingTimer?
    ensures var m' := ClearRingTimer(m.(armed := m.armed - {t}), t.call); TimersAgree(m') && OnlyTimers(m, m')
  {
    var m' := ClearRingTimer(m.(armed := m.armed - {t}), t.call);
    assert RingHandle(m, t.call, t);
    forall d, x | RingHandle(m', d, x) ensures RingHandle(m, d, x) && d != t.call {}
    forall d, w, x | GraceHandle(m', d, w, x) ensures GraceHandle(m, d, w, x) {}
    TimersStay(m, m', {t});
  }

  lemma GraceFiresTimers(m: Mem, t: Timer)
    requires TimersAgree(m) && t in m.armed && t.GraceTimer?
    ensures var m' := ClearGraceTimer(m.(armed := m.armed - {t}), t.call, t.user); TimersAgree(m') && OnlyTimers(m, m')
  {
    var m' := ClearGraceTimer(m.(armed := m.armed - {t}), t.call, t.user);
    assert GraceHandle(m, t.call, t.user, t);
    forall d, x | RingHandle(m', d, x) ensures RingHandle(m, d, x) {}
    forall d, w, x | GraceHandle(m', d, w, x) ensures GraceHandle(m, d, w, x) && !(d == t.call && w == t.user) {}
    TimersStay(m, m', {t});
  }

  function ArmRing(m: Mem, c: CallId): Mem {
    var t := RingTimer(m.issued, c);
    SetRingTimer(m.(armed := m.armed + {t}, issued := m.issued + 1), c, t)
  }

  /** A ring timer may only be armed over an empty handle: setRingTimer clears nothing. */
  lemma ArmRingTimers(m: Mem, c: CallId)
    requires TimersAgree(m) && c in m.calls && m.calls[c].ringTimer.None?
    ensures TimersAgree(ArmRing(m, c)) && OnlyTimers(m, ArmRing(m, c))
  {
    var t := RingTimer(m.issued, c);
    var m' := ArmRing(m, c);
    forall d, x | RingHandle(m', d, x) ensures RingHandle(m, d, x) || (d == c && x == t) {}
    forall d, w, x | GraceHandle(m', d, w, x) ensures GraceHandle(m, d, w, x) {}
    forall x | x in m.armed ensures (x.RingTimer? ==> RingHandle(m', x.call, x))
      && (x.GraceTimer? ==> GraceHandle(m', x.call, x.user, x) && m'.IsJoined(x.call, x.user))
    {
      assert x.RingTimer? ==> RingHandle(m, x.call, x);
      assert x.GraceTimer? ==> GraceHandle(m, x.call, x.user, x) && m.IsJoined(x.call, x.user);
    }
  }

  lemma ArmGraceTimers(n: Node, c: CallId, u: UserId)
    requires TimersAgree(n.mem) && n.mem.IsJoined(c, u)
    ensures TimersAgree(StartGrace(n, c, u).mem) && OnlyTimers(n.mem, StartGrace(n, c, u).mem)
  {
    var m := n.mem;
    var t := GraceTimer(m.issued, c, u);
    var m' := StartGrace(n, c, u).mem;
    var before := m.calls[c].people[u].grace;
    assert before.Some? ==> GraceHandle(m, c, u, before.value);
    assert m'.armed == Disarm(m.armed, before) + {t};
    forall d, x | RingHandle(m', d, x) ensures RingHandle(m, d, x) {}
    forall d, w, x | GraceHandle(m', d, w, x)
      ensures if d == c && w == u then x == t else GraceHandle(m, d, w, x) {}
    forall x | x in m'.armed && x != t ensures (x.RingTimer? ==> RingHandle(m', x.call, x))
      && (x.GraceTimer? ==> GraceHandle(m', x.call, x.user, x) && m'.IsJoined(x.call, x.user))
    {
      assert x.RingTimer? ==> RingHandle(m, x.call, x);
      assert x.GraceTimer? ==> GraceHandle(m, x.call, x.user, x) && m.IsJoined(x.call, x.user);
    }
  }
}
