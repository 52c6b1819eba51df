/**
 The call handlers as the server runs them: each method is one synchronous segment
 over the state machine, the presence counter and the batches sent. It does exactly what
 the segment of the same name in CallSegments.dfy does, and keeps what every reachable
 state has: consistent maps and timers, the shapes of live calls, and rings only for
 connected users, up to the GROUP calls in `stranded`.
 */
module CallControllers {
  import opened Common
  import opened CallModel
  import opened CallSegments
  import opened CallProtocol
  import opened CallTheorems
  import opened ActiveCallsService
  import M = CallModel
  import S = CallSegments

  // ----- the segments keep the invariant ---------------------------------------------

  /** Whatever calls were stranded before, the invariant up to them is kept. */
  ghost predicate Sound(n: Node, n': Node) {
    forall stranded: set<CallId> | NodeInv(n, stranded) :: NodeInv(n', stranded)
  }

  lemma InviteIsSound(n: Node, c: CallId, u: UserId, conv: Conversation, kind: Kind, member: bool,
                      members: Option<set<UserId>>, blocked: bool, now: int)
    requires InviteFits(n, c, u, conv, member, members)
    ensures Sound(n, S.Invite(n, c, u, conv, kind, member, members, blocked, now))
  {
    hide NodeInv;
    forall stranded: set<CallId> | NodeInv(n, stranded)
      ensures NodeInv(S.Invite(n, c, u, conv, kind, member, members, blocked, now), stranded)
    {
      InviteKeepsNode(n, c, u, conv, kind, member, members, blocked, now, stranded);
    }
  }

  lemma JoinIsSound(n: Node, c: CallId, u: UserId, member: bool, now: int)
    requires c in n.mem.calls ==> TruthfulMember(n.mem.calls[c].conv, u, member)
    ensures Sound(n, S.Join(n, c, u, member, now))
  {
    hide NodeInv;
    if c in n.mem.calls {
      forall stranded: set<CallId> | NodeInv(n, stranded) ensures NodeInv(S.Join(n, c, u, member, now), stranded) {
        JoinKeepsNode(n, c, u, n.mem.calls[c].conv, member, now, stranded);
      }
    }
  }

  lemma ControlsAreSound(n: Node, c: CallId, u: UserId, now: int)
    ensures Sound(n, S.Cancel(n, c, u, now)) && Sound(n, S.Reject(n, c, u, now)) && Sound(n, S.Leave(n, c, u, now))
  {
    hide NodeInv, S.Cancel, S.Reject, S.Depart;
    forall stranded: set<CallId> | NodeInv(n, stranded)
      ensures NodeInv(S.Cancel(n, c, u, now), stranded) && NodeInv(S.Reject(n, c, u, now), stranded)
      ensures NodeInv(S.Leave(n, c, u, now), stranded)
    {
      ControlsKeepNode(n, c, u, now, stranded);
    }
  }

  lemma TimersAreSound(n: Node, t: Timer, now: int)
    requires t in n.mem.armed
    ensures t.RingTimer? ==> Sound(n, S.RingExpires(n, t, now))
    ensures t.GraceTimer? ==> Sound(n, S.GraceExpires(n, t, now))
  {
    hide NodeInv, S.RingExpires, S.GraceExpires;
    forall stranded: set<CallId> | NodeInv(n, stranded)
      ensures t.RingTimer? ==> NodeInv(S.RingExpires(n, t, now), stranded)
      ensures t.GraceTimer? ==> NodeInv(S.GraceExpires(n, t, now), stranded)
    {
      if t.RingTimer? { RingExpiresKeepsNode(n, t, now, stranded); } else { GraceExpiresKeepsNode(n, t, now, stranded); }
    }
  }

  lemma ConnectIsSound(n: Node, u: UserId, s: SocketId)
    ensures Sound(n, S.Connect(n, u, s))
  {
    hide NodeInv, S.Connect;
    forall stranded: set<CallId> | NodeInv(n, stranded) ensures NodeInv(S.Connect(n, u, s), stranded) {
      ConnectKeepsNode(n, u, s, stranded);
    }
  }

  lemma DisconnectIsSound(n: Node, u: UserId, s: SocketId, rings: seq<CallId>, now: int)
    requires s in SocketsOf(n.online, u)
    requires Lists(rings, (if S.Count(n.online, u) > 1 then n else S.LoseOwnCall(n, u, now)).mem.RingsFor(u))
    ensures Sound(n, S.Disconnect(n, u, s, rings, now))
  {
    hide S.Disconnect, S.LoseOwnCall;
    forall stranded: set<CallId> | NodeInv(n, stranded) ensures NodeInv(S.Disconnect(n, u, s, rings, now), stranded) {
      DisconnectKeepsOnline(n, u, s, rings, now, stranded);
    }
  }

  lemma KickIsSound(n: Node, conv: Conversation, users: seq<UserId>, now: int)
    ensures Sound(n, S.Kick(n, conv, users, now))
  {
    hide NodeInv, S.Kick;
    forall stranded: set<CallId> | NodeInv(n, stranded) ensures NodeInv(S.Kick(n, conv, users, now), stranded) {
      KickKeepsNode(n, conv, users, now, stranded);
    }
  }

  lemma SweepIsSound(n: Node, c: CallId, now: int)
    ensures Sound(n, S.SweepOne(n, c, now))
  {
    hide NodeInv, S.SweepOne;
    forall stranded: set<CallId> | NodeInv(n, stranded) ensures NodeInv(S.SweepOne(n, c, now), stranded) {
      SweepKeepsNode(n, c, now, stranded);
    }
  }

  lemma GoOnIsSound(n: Node, i: nat)
    requires GoOnFits(n, i) && !RollbackStrands(n, i)
    ensures Sound(n, S.GoOn(n, i))
  {
    hide NodeInv, S.GoOn, RollbackStrands;
    forall stranded: set<CallId> | NodeInv(n, stranded) ensures NodeInv(S.GoOn(n, i), stranded) {
      GoOnKeepsNode(n, i, stranded, stranded);
    }
  }

  // ----- presence ----------------------------------------------------------------------

  class Presence {
    var online: map<UserId, set<SocketId>>

    constructor ()
      ensures online == map[]
    {
      online := map[];
    }

    /** Tells the tab that brings a user online from the later ones. */
    method Add(u: UserId, s: SocketId) returns (first: bool)
      modifies this
      ensures online == AddSocket(old(online), u, s)
      ensures first <==> S.Count(online, u) == 1
    {
      if u !in online { online := online[u := {}]; }
      online := online[u := online[u] + {s}];
      assert online == AddSocket(old(online), u, s);
      first := |online[u]| == 1;
    }

    /** Tells the tab that takes a user offline; a socket unknown to the map takes nobody. */
    method Remove(u: UserId, s: SocketId) returns (last: bool)
      modifies this
      ensures online == RemoveSocket(old(online), u, s)
      ensures last <==> u in old(online) && u !in online
    {
      if u !in online { return false; }
      online := online[u := online[u] - {s}];
      if online[u] != {} { return false; }
      online := online - {u};
      assert online == RemoveSocket(old(online), u, s);
      return true;
    }

    method Count(u: UserId) returns (n: nat)
      ensures n == S.Count(online, u)
    {
      n := if u in online then |online[u]| else 0;
    }
  }

  class CallController {
    const active: ActiveCalls
    const presence: Presence
    /** Every transaction sent, with the answers received so far. */
    var batches: seq<Batch>

    ghost function View(): Node
      reads this, active, presence
    {
      Node(active.View(), presence.online, batches)
    }

    constructor ()
      ensures View() == Node(EMPTY, map[], [])
      ensures fresh(active) && fresh(presence)
    {
      active := new ActiveCalls();
      presence := new Presence();
      batches := [];
    }

    method Send(op: Op)
      modifies this`batches
      ensures batches == old(batches) + [Batch(op, InFlight)]
    {
      batches := batches + [Batch(op, InFlight)];
    }

    /** The one finalizer, up to its await: check-and-set, then the batch. */
    method EndCall(c: CallId, verdict: Verdict, now: int)
      modifies this, active
      ensures View() == S.EndCall(old(View()), c, verdict, now)
    {
      ghost var before := View();
      var won := active.BeginTerminal(c);
      if !won { return; }
      var record := active.calls[c];
      var durationSec := if verdict.Ended? && record.answeredAt.Some?
                         then Some((now - record.answeredAt.value + 500) / 1000) else None;
      Send(Finalize(c, record.conv, record.kind, verdict, durationSec, record.status.Ringing?));
    }

    method CallInvite(c: CallId, u: UserId, conv: Conversation, kind: Kind, member: bool,
                      members: Option<set<UserId>>, blocked: bool, now: int) returns (answer: InviteAnswer)
      modifies this, active
      ensures answer == InviteAnswerOf(old(View()), u, conv, member, members, blocked)
      ensures View() == S.Invite(old(View()), c, u, conv, kind, member, members, blocked, now)
      ensures old(InviteFits(View(), c, u, conv, member, members)) ==> Sound(old(View()), View())
    {
      hide Sound;
      if InviteFits(View(), c, u, conv, member, members) { InviteIsSound(View(), c, u, conv, kind, member, members, blocked, now); }
      if !member || members.None? || blocked { return ConversationNotFound; }
      if u in active.byUser { return SelfBusy; }
      if conv in active.byConversation && active.byConversation[conv] in active.calls {
        return CallActive(active.byConversation[conv]);
      }
      var rung := OnlineMembers(u, members.value);
      if rung == {} { return Offline; }
      if conv.Direct? {
        var busy := set m | m in rung && m in active.byUser;
        assert busy != {} <==> exists m | m in rung :: m in active.byUser by {
          if m :| m in rung && m in active.byUser { assert m in busy; }
        }
        if busy != {} { return PeerBusy; }
      }
      active.Create(c, conv, kind, u, rung, now);
      Send(InsertCall(c, conv, kind, u, rung));
      return Reserved;
    }

    method OnlineMembers(u: UserId, members: set<UserId>) returns (rung: set<UserId>)
      ensures rung == OnlineOthers(View(), u, members)
    {
      rung := {};
      var rest := members;
      while rest != {}
        invariant rest <= members
        invariant rung == set m | m in members - rest && m != u && S.Count(presence.online, m) > 0
        decreases rest
      {
        var m :| m in rest;
        rest := rest - {m};
        var n := presence.Count(m);
        if m != u && n > 0 { rung := rung + {m}; }
      }
    }

    method JoinCall(c: CallId, u: UserId, member: bool, now: int) returns (answer: JoinAnswer)
      modifies this, active
      ensures answer == JoinAnswerOf(old(View()), c, u, member)
      ensures View() == S.Join(old(View()), c, u, member, now)
      ensures old(c in active.calls ==> TruthfulMember(active.calls[c].conv, u, member)) ==> Sound(old(View()), View())
    {
      hide Sound;
      if c in active.calls ==> TruthfulMember(active.calls[c].conv, u, member) { JoinIsSound(View(), c, u, member, now); }
      if !member || c !in active.calls || active.calls[c].terminal { return JoinNotFound; }
      if u in active.byUser && active.byUser[u] != c { return JoinSelfBusy; }
      var alreadyJoined := u in active.calls[c].people && active.calls[c].people[u].Joined();
      var joined := active.JoinedUserIds(c);
      if !alreadyJoined && |joined| >= MAX_JOINED { return CallFull; }
      var mark := active.MarkJoined(c, u, now);
      Send(UpsertJoin(c, u, alreadyJoined, mark.becameOngoing));
      return Joined(alreadyJoined, mark.becameOngoing);
    }

    method CallCancel(c: CallId, u: UserId, now: int)
      modifies this, active
      ensures View() == S.Cancel(old(View()), c, u, now)
      ensures Sound(old(View()), View())
    {
      hide Sound;
      ControlsAreSound(View(), c, u, now);
      if c !in active.calls { return; }
      var record := active.calls[c];
      if record.terminal || record.startedBy != u || !record.status.Ringing? { return; }
      EndCall(c, Missed, now);
    }

    method CallReject(c: CallId, u: UserId, now: int)
      modifies this, active
      ensures View() == S.Reject(old(View()), c, u, now)
      ensures Sound(old(View()), View())
    {
      hide Sound;
      ControlsAreSound(View(), c, u, now);
      if c !in active.calls || active.calls[c].terminal { return; }
      var pending := active.RungPendingUserIds(c);
      if u !in pending { return; }
      var rungRemaining := active.MarkRejected(c, u);
      var record := active.calls[c];
      if record.conv.Direct? {
        EndCall(c, Rejected, now);
      } else if record.status.Ringing? && rungRemaining == 0 {
        EndCall(c, Missed, now);
      }
    }

    method CallLeave(c: CallId, u: UserId, now: int)
      modifies this, active
      ensures View() == S.Leave(old(View()), c, u, now)
      ensures Sound(old(View()), View())
    {
      hide Sound;
      ControlsAreSound(View(), c, u, now);
      if c !in active.calls || active.calls[c].terminal { return; }
      if u !in active.calls[c].people || !active.calls[c].people[u].Joined() { return; }
      Depart(c, u, now);
    }

    method Depart(c: CallId, u: UserId, now: int)
      requires c in active.calls
      modifies this, active
      ensures View() == S.Depart(old(View()), c, u, now)
    {
      var joinedRemaining := active.MarkLeft(c, u);
      var record := active.calls[c];
      if EndsWithoutUser(record, joinedRemaining) {
        EndCall(c, Closing(record), now);
      } else {
        Send(StampLeft(c, {u}));
      }
    }

    method RingTimeout(t: Timer, now: int)
      requires t.RingTimer?
      modifies this, active
      ensures View() == S.RingExpires(old(View()), t, now)
      ensures t in old(active.armed) ==> Sound(old(View()), View())
    {
      hide Sound;
      if t in active.armed { TimersAreSound(View(), t, now); }
      active.ClearTimeout(Some(t)); // fired: the event loop no longer holds it
      active.ClearRingTimer(t.call);
      if t.call !in active.calls || active.calls[t.call].terminal { return; }
      if active.calls[t.call].status.Ringing? { EndCall(t.call, Missed, now); }
    }

    method GraceTimeout(t: Timer, now: int)
      requires t.GraceTimer?
      modifies this, active
      ensures View() == S.GraceExpires(old(View()), t, now)
      ensures t in old(active.armed) ==> Sound(old(View()), View())
    {
      hide Sound;
      if t in active.armed { TimersAreSound(View(), t, now); }
      active.ClearTimeout(Some(t));
      active.ClearGraceTimer(t.call, t.user);
      if t.call !in active.calls || active.calls[t.call].terminal { return; }
      if t.user !in active.calls[t.call].people || !active.calls[t.call].people[t.user].Joined() { return; }
      var sockets := presence.Count(t.user);
      if sockets > 0 { return; } // reconnected
      Depart(t.call, t.user, now);
    }

    method StartGraceTimer(c: CallId, u: UserId)
      modifies active
      ensures View() == S.StartGrace(old(View()), c, u)
    {
      var t := GraceTimer(active.issued, c, u);
      active.armed, active.issued := active.armed + {t}, active.issued + 1;
      active.SetGraceTimer(c, u, t);
    }

    /** The synchronous prefix of a connection: graces cleared first, then presence. */
    method Connection(u: UserId, s: SocketId)
      modifies active, presence
      ensures View() == S.Connect(old(View()), u, s)
      ensures Sound(old(View()), View())
    {
      hide Sound;
      ConnectIsSound(View(), u, s);
      active.ClearUserGraceTimers(u);
      var first := presence.Add(u, s);
    }

    /** Both disconnecting listeners, calls first so that presence still counts this socket. */
    method Disconnecting(u: UserId, s: SocketId, now: int) returns (ghost rings: seq<CallId>)
      modifies this, active, presence
      ensures Lists(rings, (if S.Count(old(View()).online, u) > 1 then old(View())
                            else S.LoseOwnCall(old(View()), u, now)).mem.RingsFor(u))
      ensures View() == S.Disconnect(old(View()), u, s, rings, now)
      ensures s in old(SocketsOf(presence.online, u)) ==> Sound(old(View()), View())
    {
      hide Sound;
      ghost var before := View();
      rings := CallDisconnecting(u, now);
      var last := presence.Remove(u, s);
      if s in SocketsOf(before.online, u) { DisconnectIsSound(before, u, s, rings, now); }
    }

    method CallDisconnecting(u: UserId, now: int) returns (rings: seq<CallId>)
      modifies this, active
      ensures Lists(rings, (if S.Count(old(View()).online, u) > 1 then old(View())
                            else S.LoseOwnCall(old(View()), u, now)).mem.RingsFor(u))
      ensures View() == S.CallListener(old(View()), u, rings, now)
    {
      var sockets := presence.Count(u);
      rings := active.RingsFor(u);
      if sockets > 1 { return; } // another tab still signals
      LoseOwnCall(u, now);
      rings := active.RingsFor(u);
      ghost var own := View();
      for i := 0 to |rings|
        invariant View() == S.LoseRings(own, rings[..i], u, now)
      {
        LoseRing(rings[i], u, now);
        assert rings[..i+1][..i] == rings[..i];
      }
      assert rings[..|rings|] == rings;
    }

    method LoseOwnCall(u: UserId, now: int)
      modifies this, active
      ensures View() == S.LoseOwnCall(old(View()), u, now)
    {
      if u !in active.byUser || active.byUser[u] !in active.calls { return; }
      var c := active.byUser[u];
      var record := active.calls[c];
      if record.terminal { return; }
      if record.status.Ringing? && record.startedBy == u {
        EndCall(c, Missed, now);
      } else {
        StartGraceTimer(c, u);
      }
    }

    method LoseRing(c: CallId, u: UserId, now: int)
      modifies this, active
      ensures View() == S.LoseRing(old(View()), c, u, now)
    {
      if c !in active.calls { return; }
      if active.calls[c].conv.Direct? {
        EndCall(c, Missed, now);
      } else {
        var rungRemaining := active.MarkRungGone(c, u);
        if active.calls[c].status.Ringing? && rungRemaining == 0 { EndCall(c, Missed, now); }
      }
    }

    /** Members removed from a group are forced out of its live call, all in one segment. */
    method KickFromConversationCall(users: seq<UserId>, conv: Conversation, now: int)
      modifies this, active
      ensures View() == S.Kick(old(View()), conv, users, now)
      ensures Sound(old(View()), View())
    {
      hide Sound;
      KickIsSound(View(), conv, users, now);
      if conv !in active.byConversation || active.byConversation[conv] !in active.calls { return; }
      var c := active.byConversation[conv];
      if active.calls[c].terminal { return; }
      var leftUserIds: set<UserId>, ends := {}, false;
      ghost var start := KickState(active.View(), {}, false);
      for i := 0 to |users|
        invariant c in active.calls
        invariant batches == old(batches)
        invariant KickState(active.View(), leftUserIds, ends) == KickAll(start, c, users[..i])
      {
        assert users[..i+1][..i] == users[..i];
        var u := users[i];
        var pending := active.RungPendingUserIds(c);
        if u in active.calls[c].people && active.calls[c].people[u].Joined() {
          var joinedRemaining := active.MarkLeft(c, u);
          leftUserIds := leftUserIds + {u};
          if EndsWithoutUser(active.calls[c], joinedRemaining) { ends := true; }
        } else if u in pending {
          var rungRemaining := active.MarkRungGone(c, u);
          if active.calls[c].status.Ringing? && rungRemaining == 0 { ends := true; }
        }
      }
      assert users[..|users|] == users;
      if ends {
        EndCall(c, Closing(active.calls[c]), now);
      } else if leftUserIds != {} {
        Send(StampLeft(c, leftUserIds));
      }
    }

    /** The handler that awaited batch `i` goes on with the database's answer. */
    method GoesOn(i: nat)
      requires i < |batches|
      modifies this, active
      ensures View() == S.GoOn(old(View()), i)
      ensures old(GoOnFits(View(), i) && !RollbackStrands(View(), i)) ==> Sound(old(View()), View())
    {
      hide Sound;
      if GoOnFits(View(), i) && !RollbackStrands(View(), i) { GoOnIsSound(View(), i); }
      var b := batches[i];
      batches := batches[i := b.(phase := Closed)];
      match b.op
      case InsertCall(_, _, _, _, _) => InviteGoesOn(b.op, b.phase.Committed?);
      case UpsertJoin(c, u, alreadyJoined, becameOngoing) =>
        if !b.phase.Committed? {
          if !alreadyJoined { var remaining := active.MarkLeft(c, u); }
          if becameOngoing { active.RevertOngoing(c); }
        } else if c !in active.calls || active.calls[c].terminal {
          Send(Restamp(c, u));
        }
      case Finalize(c, _, _, _, _, _) => active.Remove(c);
      case _ =>
    }

    method InviteGoesOn(op: Op, ok: bool)
      requires op.InsertCall?
      modifies this, active
      ensures View() == S.InviteGoesOn(old(View()), op, ok)
    {
      var c := op.call;
      if !ok {
        active.Remove(c);
      } else if c !in active.calls || active.calls[c].terminal {
        Send(StampOrphan(c));
      } else {
        var t := RingTimer(active.issued, c);
        active.armed, active.issued := active.armed + {t}, active.issued + 1;
        active.SetRingTimer(c, t);
      }
    }

    /** One stuck record the sweeper's interval comes upon. */
    method SweepOne(c: CallId, now: int)
      modifies this, active
      ensures View() == S.SweepOne(old(View()), c, now)
      ensures Sound(old(View()), View())
    {
      hide Sound;
      SweepIsSound(View(), c, now);
      if c !in active.calls { return; }
      var record := active.calls[c];
      if record.terminal || !record.status.Ringing? || record.startedAt >= now - STUCK_RINGING_MS { return; }
      active.Remove(c);
      Send(StampSwept(c));
    }
  }
}
