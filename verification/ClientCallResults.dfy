/** What each event does to the call session, and that a call does get through: two runs to a connected call. */
module ClientCallResults {
  import opened Common
  import opened ClientCall
  import opened ClientCallProofs

  // ----- how to tell it --------------------------------------------------------------

  /** The user has a fresh connection, its only one, and a window to connect in. */
  ghost predicate Repeered(s: Session, s': Session, u: UserId, initiator: bool) {
    && u in s'.peers && s'.peers[u] == Peer(s.peersMade, initiator, false)
    && s'.peersMade == s.peersMade + 1 && u in s'.timers
    && s'.openPeers == s.openPeers - (if u in s.peers then {s.peers[u].id} else {}) + {s.peersMade}
  }

  /** Nobody else's connection, window or tile is touched, nor any media. */
  ghost predicate OthersKept(s: Session, s': Session, u: UserId) {
    && s'.peers - {u} == s.peers - {u} && s'.timers - {u} == s.timers - {u}
    && s'.state.participants - {u} == s.state.participants - {u}
    && s'.state.stream == s.state.stream && s'.liveStreams == s.liveStreams
    && s'.state.callId == s.state.callId && s'.state.conv == s.state.conv
  }

  /** Nothing but the await itself is over. */
  predicate OnlyCame(s: Session, s': Session) {
    s' == s.(waits := s'.waits, pendingJoin := s'.pendingJoin, accepting := s'.accepting)
  }

  // ----- answers ---------------------------------------------------------------------

  /**
   A join that succeeds makes the call active: with the call and conversation named, a
   tile and a window for everybody named, and media and connections as they were.
   */
  lemma JoinOkGoesActive(me: UserId, s: Session, callId: CallId, accepting: bool, id: CallId, conv: string, users: set<UserId>)
    requires Enabled(s, JoinAckComes(callId, accepting, Joined(id, conv, users)))
    requires !s.state.phase.Idle? && s.state.callId == Some(callId)
    ensures var s' := Next(s, me, JoinAckComes(callId, accepting, Joined(id, conv, users)));
            && s'.state.phase.Active? && s'.state.callId == Some(id) && s'.state.conv == Some(conv)
            && s'.state.stream == s.state.stream && s'.peers == s.peers && s'.openPeers == s.openPeers && s'.liveStreams == s.liveStreams
            && s'.timers == s.timers + users
            && s'.state.participants.Keys == s.state.participants.Keys + (users - {me})
            && (forall u | u in s'.state.participants :: s'.state.participants[u] <==> u in s.state.participants && s.state.participants[u])
            && s'.pendingJoin.None? && (s'.accepting <==> s.accepting && !accepting)
  {
  }

  /** Only a join that fails, for the call still shown, ends the session. */
  lemma JoinAckEndsExactly(me: UserId, s: Session, callId: CallId, accepting: bool, answer: JoinAnswer)
    requires Reachable(me, s) && Enabled(s, JoinAckComes(callId, accepting, answer))
    ensures var s' := Next(s, me, JoinAckComes(callId, accepting, answer));
            && (s'.state.phase.Idle? <==> s.state.phase.Idle? || (s.state.callId == Some(callId) && answer.NotJoined?))
            && (s.state.phase.Idle? || s.state.callId != Some(callId) ==> OnlyCame(s, s'))
  {
    hide Reachable, PeersAreOpen, StreamsAreKnown;
    ReachableInv(me, s);
  }

  /** What a session in a call makes of the server's view of it: the same call is rejoined, any other or none ends it. */
  lemma StateAckSettles(me: UserId, s: Session, answer: StateAnswer)
    requires Reachable(me, s) && Enabled(s, StateAckComes(answer))
    ensures var s' := Next(s, me, StateAckComes(answer));
            var inCall := s.state.callId.Some? && !s.state.phase.Idle? && !s.state.phase.Incoming?;
            if answer.NoAnswer? || !inCall then OnlyCame(s, s') && s'.pendingJoin == s.pendingJoin
            else if answer.NoCall? || Some(answer.callId) != s.state.callId then s'.state == IDLE_STATE && HoldsNothing(s')
            else Resynced(me, s, s', answer.participants)
  {
    hide Reachable, Teardown, SyncParticipants, SetPhaseIfReconnecting, HoldsNothing, Inv, Resynced, JoinById;
    ReachableInv(me, s);
    if answer.InCall? && Some(answer.callId) == s.state.callId && !s.state.phase.Idle? && !s.state.phase.Incoming? {
      Resyncing(me, Came(s, StateAck), answer.participants);
      ResyncedThere(me, s, Came(s, StateAck), Next(s, me, StateAckComes(answer)), answer.participants);
    } else if answer.NoCall? || (answer.InCall? && Some(answer.callId) != s.state.callId) {
      var s0 := Came(s, StateAck);
      WaitsDoNotMatter(s, s0);
      TeardownKeepsInv(s0);
      RestingHoldsNothing(Teardown(s0));
    }
  }

  lemma ResyncedThere(me: UserId, s: Session, s0: Session, s': Session, users: set<UserId>)
    requires s0 == s.(waits := s0.waits)
    ensures Resynced(me, s0, s', users) <==> Resynced(me, s, s', users)
  {
  }

  lemma Resyncing(me: UserId, s: Session, users: set<UserId>)
    requires s.state.callId.Some? && !s.state.phase.Idle? && !s.state.phase.Incoming?
    ensures Resynced(me, s, OnStateAck(s, me, InCall(s.state.callId.value, users)), users)
  {
    hide SyncParticipants, SetPhaseIfReconnecting, OnStateAck;
    Synced(s.state, users - {me});
    NoLongerReconnecting(SyncParticipants(s.state, users - {me}, true));
    ResyncIs(me, s, users);
  }

  lemma ResyncIs(me: UserId, s: Session, users: set<UserId>)
    requires s.state.callId.Some? && !s.state.phase.Idle? && !s.state.phase.Incoming?
    ensures var (s', c) := (OnStateAck(s, me, InCall(s.state.callId.value, users)), s.state.callId.value);
            && s'.state == SetPhaseIfReconnecting(SyncParticipants(s.state, users - {me}, true))
            && s' == s.(state := s'.state, pendingJoin := s'.pendingJoin, waits := s'.waits)
            && (!s.state.phase.Outgoing? ==> s'.pendingJoin == Some(c) && s'.waits == s.waits + multiset{JoinAck(c, false)})
  {
    hide SyncParticipants, SetPhaseIfReconnecting;
  }

  lemma NoLongerReconnecting(st: CallState)
    ensures SetPhaseIfReconnecting(st) == st.(phase := if st.phase.Reconnecting? then Active else st.phase)
  {
  }

  lemma Synced(st: CallState, users: set<UserId>)
    requires !st.phase.Idle?
    ensures var st' := SyncParticipants(st, users, true);
            && st' == st.(participants := st'.participants) && st'.participants.Keys == users
            && forall u | u in users :: st'.participants[u] <==> u in st.participants && st.participants[u]
  {
  }

  /** Exactly the others the server names have tiles; the call is no longer reconnecting, and is joined again unless it still rings. */
  ghost predicate Resynced(me: UserId, s: Session, s': Session, users: set<UserId>) {
    && s'.state.participants.Keys == users - {me}
    && (forall u | u in s'.state.participants :: s'.state.participants[u] <==> u in s.state.participants && s.state.participants[u])
    && s'.state.phase == (if s.state.phase.Reconnecting? then Active else s.state.phase)
    && s'.state.callId == s.state.callId && s'.state.conv == s.state.conv && s'.state.stream == s.state.stream
    && s'.peers == s.peers && s'.timers == s.timers && s'.openPeers == s.openPeers && s'.liveStreams == s.liveStreams
    && (!s.state.phase.Outgoing? ==>
          s.state.callId.Some? && s'.pendingJoin == s.state.callId && JoinAck(s.state.callId.value, false) in s'.waits)
  }

  // ----- other people ------------------------------------------------------------------

  /** Whether the session is in the call and so offers to newcomers. */
  predicate InTheCall(me: UserId, s: Session, callId: CallId, joined: set<UserId>) {
    s.state.callId == Some(callId) && me in joined && (s.state.phase.Outgoing? || InMesh(s.state.phase))
  }

  /** Somebody joins: an outgoing ring is answered, the newcomer has a tile and is offered a fresh connection. */
  lemma NewcomerIsOffered(me: UserId, s: Session, callId: CallId, user: UserId, joined: set<UserId>)
    requires Reachable(me, s) && user != me
    ensures var s' := Next(s, me, Joins(callId, user, joined));
            if !InTheCall(me, s, callId, joined) then s' == s
            else && s'.state.phase == (if s.state.phase.Outgoing? then Active else s.state.phase)
                 && OthersKept(s, s', user) && user in s'.state.participants && user in s'.timers
                 && (if s.state.stream.Some? then Repeered(s, s', user, true) else user !in s'.peers)
  {
    hide Reachable, StreamsAreKnown, PeersAreOpen, DropPeer, CreatePeer, UpsertParticipant, OthersKept, Repeered, PeerIds;
    ReachableInv(me, s);
    if InTheCall(me, s, callId, joined) {
      var st := if s.state.phase.Outgoing? then SetActive(s.state, None, None) else s.state;
      var s0 := s.(state := UpsertParticipant(st, user));
      Upserted(s, st, user);
      Repeering(s0, user, true);
      KeptTwice(s, s0, Next(s, me, Joins(callId, user, joined)), user);
      RepeeredThere(s, s0, Next(s, me, Joins(callId, user, joined)), user, true);
    }
  }

  lemma Upserted(s: Session, st: CallState, user: UserId)
    requires !st.phase.Idle? && st == s.state.(phase := st.phase, joining := st.joining)
    ensures var s0 := s.(state := UpsertParticipant(st, user));
            OthersKept(s, s0, user) && user in s0.state.participants && s0.state == st.(participants := s0.state.participants)
  {
  }

  lemma KeptTwice(s: Session, s1: Session, s2: Session, u: UserId)
    requires OthersKept(s, s1, u) && OthersKept(s1, s2, u)
    ensures OthersKept(s, s2, u)
  {
  }

  lemma RepeeredThere(s: Session, s0: Session, s': Session, u: UserId, initiator: bool)
    requires s0 == s.(state := s0.state)
    ensures Repeered(s0, s', u, initiator) ==> Repeered(s, s', u, initiator)
  {
    hide PeerIds;
  }

  /** Dropping whatever connection there is and making a new one. */
  lemma Repeering(s: Session, u: UserId, initiator: bool)
    requires PeersAreOpen(s.peers, s.openPeers, s.peersMade)
    ensures var s' := ArmConnectTimer(CreatePeer(ClearConnectTimer(DropPeer(s, u), u), u, initiator, false), u);
            && s'.state == s.state && u in s'.timers && OthersKept(s, s', u)
            && if s.state.stream.Some? && s.state.callId.Some? then Repeered(s, s', u, initiator) else u !in s'.peers
  {
    DropIsRemoval(s, u);
    hide DropPeer, PeersAreOpen;
    var s1 := ClearConnectTimer(DropPeer(s, u), u);
    assert s1.peers - {u} == s.peers - {u} && s1.timers - {u} == s.timers - {u};
    var s' := ArmConnectTimer(CreatePeer(s1, u, initiator, false), u);
    assert s'.peers - {u} == s1.peers - {u} && s'.timers - {u} == s1.timers - {u};
  }

  /** Our own join elsewhere: a ring here stands down, unless it is our own answer's echo. */
  lemma OwnEchoStandsDown(me: UserId, s: Session, callId: CallId, joined: set<UserId>)
    requires Reachable(me, s)
    ensures var s' := Next(s, me, Joins(callId, me, joined));
            if s.state.phase.Incoming? && s.state.callId == Some(callId) && s.pendingJoin != Some(callId)
            then s'.state == IDLE_STATE && HoldsNothing(s') else s' == s
  {
    hide Reachable, Teardown;
    ReachableInv(me, s);
    TeardownKeepsInv(s);
    RestingHoldsNothing(Teardown(s));
  }

  /** Somebody leaves: all there is of them goes, and nothing else; when it is us, everything does. */
  lemma LeaverIsGone(me: UserId, s: Session, callId: CallId, user: UserId)
    requires Reachable(me, s)
    ensures var s' := Next(s, me, Leaves(callId, user));
            if s.state.callId != Some(callId) then s' == s
            else if user == me then s'.state == IDLE_STATE && HoldsNothing(s')
            else && user !in s'.peers && user !in s'.timers && user !in s'.state.participants
                 && OthersKept(s, s', user) && s'.state.phase == s.state.phase
                 && s'.openPeers == s.openPeers - (if user in s.peers then {s.peers[user].id} else {})
  {
    hide Reachable, StreamsAreKnown, Teardown;
    ReachableInv(me, s);
    DropIsRemoval(s, user);
    TeardownKeepsInv(s);
    RestingHoldsNothing(Teardown(s));
    hide PeersAreOpen;
  }

  /** An offer from somebody known replaces the connection with them; any other signal makes none. */
  lemma OfferIsAnswered(me: UserId, s: Session, callId: CallId, from: UserId, isOffer: bool)
    requires Reachable(me, s)
    ensures var s' := Next(s, me, Signal(callId, from, isOffer));
            if isOffer && s.state.callId == Some(callId) && InMesh(s.state.phase) && (from in s.peers || from in s.state.participants)
            then && OthersKept(s, s', from) && s'.state.phase == s.state.phase && from in s'.timers
                 && (from in s'.state.participants <==> from in s.state.participants)
                 && (from in s.peers && from in s.state.participants ==> !s'.state.participants[from])
                 && (if s.state.stream.Some? then Repeered(s, s', from, false) else from !in s'.peers)
            else s' == s
  {
    hide Reachable, StreamsAreKnown, PeersAreOpen, DropPeer, CreatePeer, OthersKept, Repeered, PeerIds;
    ReachableInv(me, s);
    var s' := Next(s, me, Signal(callId, from, isOffer));
    if isOffer && s.state.callId == Some(callId) && InMesh(s.state.phase) {
      var s0 := if from in s.peers then s.(state := SetConnection(s.state, from, false)) else s;
      Connecting(s, from);
      Repeering(s0, from, false);
      DropFirst(s, from, s0.state);
      if from in s.peers || from in s.state.participants {
        assert s' == ArmConnectTimer(CreatePeer(ClearConnectTimer(DropPeer(s0, from), from), from, false, false), from) by {
          if from !in s.peers { NoWindow(s, from); }
        }
        KeptTwice(s, s0, s', from);
        RepeeredThere(s, s0, s', from, false);
      }
    }
  }

  lemma Connecting(s: Session, u: UserId)
    ensures var s0 := s.(state := SetConnection(s.state, u, false));
            OthersKept(s, s0, u) && s0.state == s.state.(participants := s0.state.participants) && OthersKept(s, s, u)
            && (u in s0.state.participants <==> u in s.state.participants) && (u in s.state.participants ==> !s0.state.participants[u])
  {
  }

  /** The tile may be changed before or after the drop. */
  lemma DropFirst(s: Session, u: UserId, st: CallState)
    requires PeersAreOpen(s.peers, s.openPeers, s.peersMade)
    ensures DropPeer(s.(state := st), u) == DropPeer(s, u).(state := st)
    ensures u !in s.peers ==> DropPeer(s, u) == s
    ensures DropPeer(s, u).state == s.state
  {
    DropIsRemoval(s, u);
    DropIsRemoval(s.(state := st), u);
    hide DropPeer, PeersAreOpen;
  }

  /** Making no difference between a window cleared and armed again and one armed. */
  lemma NoWindow(s: Session, u: UserId)
    ensures ArmConnectTimer(CreatePeer(ClearConnectTimer(s, u), u, false, false), u) == ArmConnectTimer(CreatePeer(s, u, false, false), u)
  {
    assert s.timers - {u} + {u} == s.timers + {u};
  }

  /** A connection comes up: the tile shows it, its window closes, and a later drop may retry. */
  lemma ConnectionComesUp(me: UserId, s: Session, u: UserId)
    requires Enabled(s, PeerConnects(u))
    ensures var s' := Next(s, me, PeerConnects(u));
            && u in s'.peers && s'.peers[u] == s.peers[u].(retried := false) && u !in s'.timers && OthersKept(s, s', u)
            && s'.state.phase == s.state.phase && s'.openPeers == s.openPeers
            && (u in s.state.participants ==> u in s'.state.participants && s'.state.participants[u])
  {
  }

  /** A connection fails: whoever offered it tries once more, inside its window, and nobody else does. */
  lemma ConnectionFails(me: UserId, s: Session, u: UserId)
    requires Reachable(me, s) && Enabled(s, PeerCloses(u))
    ensures var s' := Next(s, me, PeerCloses(u));
            && OthersKept(s, s', u) && s'.state.phase == s.state.phase && (u in s'.state.participants <==> u in s.state.participants)
            && (u in s'.state.participants ==> !s'.state.participants[u])
            && if s.peers[u].initiator && !s.peers[u].retried && s.state.stream.Some? && s.state.callId.Some?
               then u in s'.peers && s'.peers[u] == Peer(s.peersMade, true, true) && u in s'.timers
                    && s'.openPeers == s.openPeers - {s.peers[u].id} + {s.peersMade}
               else u !in s'.peers && s'.openPeers == s.openPeers - {s.peers[u].id}
  {
    hide Reachable, StreamsAreKnown, PeersAreOpen, CreatePeer, PeerIds;
    ReachableInv(me, s);
    EntryIsOpen(s, u);
    var (id, peer) := (s.peers[u].id, s.peers[u]);
    var s2 := s.(openPeers := s.openPeers - {id}, peers := s.peers - {u}, state := SetConnection(s.state, u, false));
    assert s2.peers - {u} == s.peers - {u};
    Connecting(s, u);
    if peer.initiator && !peer.retried { Retrying(s2, u); }
  }

  lemma EntryIsOpen(s: Session, u: UserId)
    requires PeersAreOpen(s.peers, s.openPeers, s.peersMade) && u in s.peers
    ensures s.peers[u].id in s.openPeers
  {
  }

  lemma Retrying(s: Session, u: UserId)
    requires u !in s.peers
    ensures var s' := ArmConnectTimer(CreatePeer(s, u, true, true), u);
            && OthersKept(s, s', u) && s'.state == s.state
            && if s.state.stream.Some? && s.state.callId.Some?
               then u in s'.peers && s'.peers[u] == Peer(s.peersMade, true, true) && u in s'.timers && s'.openPeers == s.openPeers + {s.peersMade}
               else u !in s'.peers && s'.openPeers == s.openPeers
  {
    assert CreatePeer(s, u, true, true).peers - {u} == s.peers - {u};
  }

  /** A window runs out on somebody not connected: a DM is over, a group goes on without them. */
  lemma WindowRunsOut(me: UserId, s: Session, u: UserId)
    requires Reachable(me, s) && Enabled(s, WindowExpires(u))
    ensures var s' := Next(s, me, WindowExpires(u));
            if u !in s.state.participants || s.state.participants[u] then s' == s.(timers := s.timers - {u})
            else if s.state.direct then s'.state == IDLE_STATE && HoldsNothing(s')
            else && u !in s'.peers && u !in s'.timers && u !in s'.state.participants
                 && OthersKept(s, s', u) && s'.state.phase == s.state.phase
  {
    hide Reachable, StreamsAreKnown, Teardown;
    ReachableInv(me, s);
    var s1 := s.(timers := s.timers - {u});
    DropIsRemoval(s1, u);
    assert Inv(s1) by { assert StreamsAreKnown(s1) by { SameStreams(s, s1); } }
    TeardownKeepsInv(s1);
    RestingHoldsNothing(Teardown(s1));
    hide PeersAreOpen;
  }

  // ----- media and the invite's answer --------------------------------------------------

  /**
   Media that arrives and is still wanted is stored and runs; media nobody wants any more
   is stopped at once; a refused permission ends an accept and leaves the other surfaces up.
   */
  lemma MediaSettles(me: UserId, s: Session, step: Step)
    requires Reachable(me, s) && Enabled(s, step) && (step.StartMediaComes? || step.AcceptMediaComes? || step.JoinMediaComes?)
    ensures var s' := Next(s, me, step);
            if MediaIsStored(s, step) then Stored(s, s') && Follows(step) in s'.waits && (!step.StartMediaComes? ==> s'.state.callId == Some(step.callId))
            else if step.AcceptMediaComes? && !step.granted then s'.state == IDLE_STATE && HoldsNothing(s')
            else s'.state == s.state && s'.liveStreams == s.liveStreams && s'.peers == s.peers && s'.timers == s.timers
  {
    hide Reachable, HoldsNothing, Inv, Stored, OnStartMedia, OnJoinMedia, OnAcceptMedia;
    ReachableInv(me, s);
    FreshStream(s);
    match step
    case StartMediaComes(conv, granted) => StartMediaSettles(Came(s, StartMedia(conv)), conv, granted); StoredThere(s, Came(s, StartMedia(conv)), Next(s, me, step));
    case JoinMediaComes(callId, conv, granted) => JoinMediaSettles(Came(s, JoinMedia(callId, conv)), callId, conv, granted); StoredThere(s, Came(s, JoinMedia(callId, conv)), Next(s, me, step));
    case AcceptMediaComes(callId, granted) =>
      WaitsDoNotMatter(s, Came(s, AcceptMedia(callId)));
      AcceptMediaSettles(Came(s, AcceptMedia(callId)), callId, granted);
      StoredThere(s, Came(s, AcceptMedia(callId)), Next(s, me, step));
  }

  ghost predicate Stored(s: Session, s': Session) {
    && s'.state.stream == Some(s.streamsMade) && s'.liveStreams == s.liveStreams + {s.streamsMade}
    && s'.state.phase == s.state.phase && s'.state.conv == s.state.conv && s'.peers == s.peers && s'.timers == s.timers
  }

  lemma StoredThere(s: Session, s0: Session, s': Session)
    requires s0 == s.(waits := s0.waits)
    ensures Stored(s0, s') <==> Stored(s, s')
  {
  }

  lemma StartMediaSettles(s: Session, conv: string, granted: bool)
    requires s.streamsMade !in s.liveStreams
    ensures var s' := OnStartMedia(s, conv, granted);
            if granted && StillOutgoing(s, conv) then Stored(s, s') && InviteAck(conv) in s'.waits
            else s'.state == s.state && s'.liveStreams == s.liveStreams && s'.peers == s.peers && s'.timers == s.timers
  {
    hide StoredStream;
  }

  lemma JoinMediaSettles(s: Session, callId: CallId, conv: string, granted: bool)
    requires s.streamsMade !in s.liveStreams
    ensures var s' := OnJoinMedia(s, callId, conv, granted);
            if granted && StillOutgoing(s, conv) then Stored(s, s') && JoinAck(callId, false) in s'.waits && s'.state.callId == Some(callId)
            else s'.state == s.state && s'.liveStreams == s.liveStreams && s'.peers == s.peers && s'.timers == s.timers
  {
    hide StoredStream;
  }

  lemma AcceptMediaSettles(s: Session, callId: CallId, granted: bool)
    requires Inv(s) && s.streamsMade !in s.liveStreams
    ensures var s' := OnAcceptMedia(s, callId, granted);
            if !granted then s'.state == IDLE_STATE && HoldsNothing(s')
            else if s.state.phase.Incoming? && s.state.callId == Some(callId)
            then Stored(s, s') && JoinAck(callId, true) in s'.waits && s'.state.callId == Some(callId)
            else s'.state == s.state && s'.liveStreams == s.liveStreams && s'.peers == s.peers && s'.timers == s.timers
  {
    hide StoredStream, Inv, HoldsNothing, Teardown;
    TeardownKeepsInv(s);
    RestingHoldsNothing(Teardown(s));
    FlagIsNothing(Teardown(s));
  }

  lemma FreshStream(s: Session)
    requires Inv(s)
    ensures s.streamsMade !in s.liveStreams
  {
    hide PeersAreOpen;
  }

  lemma FlagIsNothing(s: Session)
    requires HoldsNothing(s)
    ensures HoldsNothing(s.(accepting := false))
  {
  }

  /** What the session asks the server for once it has its media. */
  function Follows(step: Step): Wait
    requires step.StartMediaComes? || step.AcceptMediaComes? || step.JoinMediaComes?
  {
    match step
    case StartMediaComes(conv, _) => InviteAck(conv)
    case AcceptMediaComes(callId, _) => JoinAck(callId, true)
    case JoinMediaComes(callId, _, _) => JoinAck(callId, false)
  }

  /** The invite's answer: the call has its id and rings on, or the call that is there already is joined, or it is over. */
  lemma InviteAckSettles(me: UserId, s: Session, conv: string, answer: InviteAnswer)
    requires Reachable(me, s) && Enabled(s, InviteAckComes(conv, answer))
    ensures var s' := Next(s, me, InviteAckComes(conv, answer));
            if !StillOutgoing(s, conv) then OnlyCame(s, s') && s'.pendingJoin == s.pendingJoin
            else if answer.Refused? then s'.state == IDLE_STATE && HoldsNothing(s')
            else && s'.state == s.state.(callId := Some(answer.callId)) && s'.liveStreams == s.liveStreams && s'.peers == s.peers
                 && (answer.AlreadyActive? ==> JoinAck(answer.callId, false) in s'.waits && s'.pendingJoin == Some(answer.callId))
  {
    hide Reachable, Teardown, HoldsNothing, Inv;
    ReachableInv(me, s);
    var s0 := Came(s, InviteAck(conv));
    WaitsDoNotMatter(s, s0);
    TeardownKeepsInv(s0);
    RestingHoldsNothing(Teardown(s0));
  }

  // ----- the end ---------------------------------------------------------------------------

  /** What ends a session that an event or a click may end. */
  predicate Ending(s: Session, step: Step) {
    match step
    case ClickHangUp => !s.state.phase.Idle?
    case ClickDecline => s.state.phase.Incoming? && s.state.callId.Some?
    case Ends(callId) => s.state.callId == Some(callId)
    case RingDismissed(callId) => s.state.phase.Incoming? && s.state.callId == Some(callId)
    case FailsafeFires => s.state.phase.Incoming? && s.state.callId == s.failsafe
    case Disconnects(byClient) => byClient
    case _ => false
  }

  /** Then it is at rest and holds nothing; otherwise it goes on, a lost socket waiting to reconnect. */
  lemma EndingsEnd(me: UserId, s: Session, step: Step)
    requires Reachable(me, s) && Enabled(s, step)
    requires step.ClickHangUp? || step.ClickDecline? || step.Ends? || step.RingDismissed? || step.FailsafeFires? || step.Disconnects?
    ensures var s' := Next(s, me, step);
            if Ending(s, step) then s'.state == IDLE_STATE && HoldsNothing(s')
            else s' == s.(failsafe := s'.failsafe, state := s'.state)
                 && s'.failsafe == (if step.FailsafeFires? then None else s.failsafe)
                 && s'.state == if step.Disconnects? && s.state.phase.Active? then s.state.(phase := Reconnecting) else s.state
  {
    hide Reachable, Teardown, HoldsNothing, PeersAreOpen, StreamsAreKnown;
    ReachableInv(me, s);
    TeardownKeepsInv(s);
    RestingHoldsNothing(Teardown(s));
    if step.FailsafeFires? {
      RingKeepsInv(s, s.failsafe.value, "", true);
      if Ending(s, step) {
        Disarmed(s);
        TeardownKeepsInv(s.(failsafe := None));
        RestingHoldsNothing(OnRingFailsafe(s, s.failsafe.value));
      }
    }
  }

  lemma Disarmed(s: Session)
    requires Inv(s)
    ensures Inv(s.(failsafe := None))
  {
    hide PeersAreOpen;
  }

  // ----- one accept at a time --------------------------------------------------------------

  predicate OfAccept(w: Wait) { w.AcceptMedia? || (w.JoinAck? && w.accepting) }

  /** The flag is up exactly while one accept is under way, and only one ever is. */
  ghost predicate OneAccept(s: Session) {
    && (forall w, v | w in s.waits && v in s.waits && OfAccept(w) && OfAccept(v) :: w == v)
    && (forall w | w in s.waits && OfAccept(w) :: s.waits[w] == 1 && s.accepting)
    && (s.accepting ==> exists w :: w in s.waits && OfAccept(w))
  }

  /** However a ring is clicked and ended meanwhile: a double click sends no second accept, and no accept blocks the next for good. */
  lemma AcceptsComeOneByOne(me: UserId, s: Session)
    requires Reachable(me, s)
    ensures OneAccept(s)
  {
    var steps :| Run(me, steps) == Some(s);
    RunKeepsOneAccept(me, steps);
  }

  lemma {:induction false} RunKeepsOneAccept(me: UserId, steps: seq<Step>)
    requires Run(me, steps).Some?
    ensures OneAccept(Run(me, steps).value)
  {
    hide OneAccept, Next, Enabled;
    if steps == [] {
      assert OneAccept(START) by { NoAccept(); }
    } else {
      RunKeepsOneAccept(me, steps[..|steps|-1]);
      NextKeepsOneAccept(Run(me, steps[..|steps|-1]).value, me, steps[|steps|-1]);
    }
  }

  lemma NoAccept()
    ensures OneAccept(START)
  {
  }

  predicate OfPeers(step: Step) { step.Joins? || step.Leaves? || step.Signal? || step.WindowExpires? || step.PeerCloses? }

  predicate OfAwaits(step: Step) {
    step.StartMediaComes? || step.JoinMediaComes? || step.InviteAckComes? || step.JoinAckComes? || step.StateAckComes?
  }

  ghost predicate SameAccept(s: Session, s': Session, w: Wait) { s'.accepting == s.accepting && s'.waits[w] == s.waits[w] }

  /** Only accepting, its media and its ack move an accept. */
  lemma OthersAcceptNothing(s: Session, me: UserId, step: Step, w: Wait)
    requires Enabled(s, step) && OfAccept(w)
    requires !step.ClickAccept? && !step.AcceptMediaComes? && !(step.JoinAckComes? && step.accepting)
    ensures SameAccept(s, Next(s, me, step), w)
  {
    if OfPeers(step) {
      hide Next;
      PeersAcceptNothing(s, me, step);
    } else if OfAwaits(step) {
      AwaitsAcceptNothing(s, me, step, w);
    } else {
      ClicksAcceptNothing(s, me, step, w);
    }
  }

  lemma ClicksAcceptNothing(s: Session, me: UserId, step: Step, w: Wait)
    requires Enabled(s, step) && OfAccept(w) && !OfPeers(step) && !OfAwaits(step) && !step.ClickAccept? && !step.AcceptMediaComes?
    ensures SameAccept(s, Next(s, me, step), w)
  {
    hide Teardown, SetIncoming, BeginOutgoing, SetConnection, PeerIds;
    TeardownKeepsWaits(s);
    if step.FailsafeFires? { TeardownKeepsWaits(s.(failsafe := None)); }
  }

  lemma AwaitsAcceptNothing(s: Session, me: UserId, step: Step, w: Wait)
    requires Enabled(s, step) && OfAccept(w) && OfAwaits(step) && !(step.JoinAckComes? && step.accepting)
    ensures SameAccept(s, Next(s, me, step), w)
  {
    hide OnStartMedia, OnJoinMedia, OnInviteAck, OnJoinAck, OnStateAck, Came;
    match step
    case StartMediaComes(conv, granted) =>
      CameIsNoAccept(s, StartMedia(conv), w);
      MediaAcceptsNothing(Came(s, StartMedia(conv)), "", conv, granted, w);
    case JoinMediaComes(callId, conv, granted) =>
      CameIsNoAccept(s, JoinMedia(callId, conv), w);
      MediaAcceptsNothing(Came(s, JoinMedia(callId, conv)), callId, conv, granted, w);
    case InviteAckComes(conv, answer) =>
      CameIsNoAccept(s, InviteAck(conv), w);
      InviteAckAcceptsNothing(Came(s, InviteAck(conv)), conv, answer, w);
    case JoinAckComes(callId, _, answer) =>
      CameIsNoAccept(s, JoinAck(callId, false), w);
      JoinAckAcceptsNothing(Came(s, JoinAck(callId, false)), me, callId, answer);
    case StateAckComes(answer) =>
      CameIsNoAccept(s, StateAck, w);
      StateAckAcceptsNothing(Came(s, StateAck), me, answer, w);
  }

  lemma CameIsNoAccept(s: Session, came: Wait, w: Wait)
    requires OfAccept(w) && !OfAccept(came)
    ensures SameAccept(s, Came(s, came), w)
  {
  }

  lemma TeardownKeepsWaits(s: Session)
    ensures Teardown(s).waits == s.waits && Teardown(s).accepting == s.accepting
  {
    hide PeerIds;
  }

  lemma MediaAcceptsNothing(s: Session, callId: CallId, conv: string, granted: bool, w: Wait)
    requires OfAccept(w)
    ensures OnStartMedia(s, conv, granted).accepting == s.accepting && OnStartMedia(s, conv, granted).waits[w] == s.waits[w]
    ensures OnJoinMedia(s, callId, conv, granted).accepting == s.accepting && OnJoinMedia(s, callId, conv, granted).waits[w] == s.waits[w]
  {
    hide StoredStream;
  }

  lemma InviteAckAcceptsNothing(s: Session, conv: string, answer: InviteAnswer, w: Wait)
    requires OfAccept(w)
    ensures OnInviteAck(s, conv, answer).accepting == s.accepting && OnInviteAck(s, conv, answer).waits[w] == s.waits[w]
  {
    hide Teardown;
    TeardownKeepsWaits(s);
  }

  lemma JoinAckAcceptsNothing(s: Session, me: UserId, callId: CallId, answer: JoinAnswer)
    ensures OnJoinAck(s, me, callId, false, answer).accepting == s.accepting && OnJoinAck(s, me, callId, false, answer).waits == s.waits
  {
    hide Teardown, SyncParticipants, SetActive;
    TeardownKeepsWaits(s.(pendingJoin := None, accepting := s.accepting));
  }

  lemma StateAckAcceptsNothing(s: Session, me: UserId, answer: StateAnswer, w: Wait)
    requires OfAccept(w)
    ensures OnStateAck(s, me, answer).accepting == s.accepting && OnStateAck(s, me, answer).waits[w] == s.waits[w]
  {
    hide Teardown, SyncParticipants, SetPhaseIfReconnecting;
    TeardownKeepsWaits(s);
  }

  lemma PeersAcceptNothing(s: Session, me: UserId, step: Step)
    requires Enabled(s, step) && OfPeers(step)
    ensures Next(s, me, step).accepting == s.accepting && Next(s, me, step).waits == s.waits
  {
    hide PeerIds, SetActive, CreatePeer, DropPeer, Destroy, StoredStream, ResetCall, RemoveParticipant, SetConnection, UpsertParticipant;
    match step
    case Joins(callId, user, _) =>
      var st := if s.state.phase.Outgoing? then SetActive(s.state, None, None) else s.state;
      var s0 := s.(state := UpsertParticipant(st, user));
      PeersKeepWaits(s0, user, 0, true);
      PeersKeepWaits(ClearConnectTimer(DropPeer(s0, user), user), user, 0, true);
    case Leaves(_, user) => PeersKeepWaits(s, user, 0, true);
    case Signal(_, from, _) =>
      PeersKeepWaits(s, from, 0, false);
      var s1 := ClearConnectTimer(DropPeer(s, from), from);
      PeersKeepWaits(s1.(state := SetConnection(s1.state, from, false)), from, 0, false);
    case WindowExpires(u) => PeersKeepWaits(s.(timers := s.timers - {u}), u, 0, true);
    case PeerCloses(u) => PeersKeepWaits(s, u, s.peers[u].id, true);
  }

  lemma PeersKeepWaits(s: Session, u: UserId, id: nat, initiator: bool)
    ensures DropPeer(s, u).waits == s.waits && DropPeer(s, u).accepting == s.accepting
    ensures Destroy(s, u, id).waits == s.waits && Destroy(s, u, id).accepting == s.accepting
    ensures CreatePeer(s, u, initiator, false).waits == s.waits && CreatePeer(s, u, initiator, false).accepting == s.accepting
  {
    hide SetConnection;
  }

  lemma AcceptMoves(s: Session, me: UserId, step: Step)
    requires Enabled(s, step) && (step.ClickAccept? || step.AcceptMediaComes? || (step.JoinAckComes? && step.accepting))
    ensures var s' := Next(s, me, step);
            match step
            case ClickAccept =>
              || s' == s
              || (s.state.callId.Some? && !s.accepting && s'.accepting && s'.waits == s.waits + multiset{AcceptMedia(s.state.callId.value)})
            case AcceptMediaComes(callId, _) =>
              || (!s'.accepting && s'.waits == s.waits - multiset{AcceptMedia(callId)})
              || (s'.accepting == s.accepting && s'.waits == s.waits - multiset{AcceptMedia(callId)} + multiset{JoinAck(callId, true)})
            case JoinAckComes(callId, _, _) => !s'.accepting && s'.waits == s.waits - multiset{JoinAck(callId, true)}
            case _ => true
  {
    hide PeerIds, SyncParticipants, SetActive, StoredStream, ResetCall;
  }

  lemma NextKeepsOneAccept(s: Session, me: UserId, step: Step)
    requires OneAccept(s) && Enabled(s, step)
    ensures OneAccept(Next(s, me, step))
  {
    hide Next, Enabled, OneAccept;
    var s' := Next(s, me, step);
    if step.ClickAccept? || step.AcceptMediaComes? || (step.JoinAckComes? && step.accepting) {
      AcceptMoves(s, me, step);
      match step
      case ClickAccept => if s' != s { AcceptBegins(s, s', AcceptMedia(s.state.callId.value)); }
      case AcceptMediaComes(callId, _) =>
        AwaitedStep(s, step);
        AcceptGoesOn(s, s', AcceptMedia(callId), JoinAck(callId, true));
      case JoinAckComes(callId, _, _) =>
        AwaitedStep(s, step);
        AcceptGoesOn(s, s', JoinAck(callId, true), JoinAck(callId, true));
      case _ =>
    } else {
      forall w | OfAccept(w) ensures s'.accepting == s.accepting && s'.waits[w] == s.waits[w] { OthersAcceptNothing(s, me, step, w); }
      OthersAcceptNothing(s, me, step, AcceptMedia(""));
      SameAccepts(s, s');
    }
  }

  lemma AwaitedStep(s: Session, step: Step)
    requires Enabled(s, step)
    ensures step.AcceptMediaComes? ==> AcceptMedia(step.callId) in s.waits
    ensures step.JoinAckComes? ==> JoinAck(step.callId, step.accepting) in s.waits
  {
  }

  lemma SameAccepts(s: Session, s': Session)
    requires OneAccept(s) && s'.accepting == s.accepting && forall w | OfAccept(w) :: s'.waits[w] == s.waits[w]
    ensures OneAccept(s')
  {
    forall w | OfAccept(w) ensures w in s'.waits <==> w in s.waits { assert s'.waits[w] == s.waits[w]; }
  }

  lemma AcceptBegins(s: Session, s': Session, w: Wait)
    requires OneAccept(s) && OfAccept(w) && !s.accepting && s'.accepting && s'.waits == s.waits + multiset{w}
    ensures OneAccept(s')
  {
    assert w in s'.waits;
    forall v | v in s'.waits && OfAccept(v) ensures v == w { assert v != w ==> v in s.waits; }
    assert w !in s.waits;
  }

  lemma AcceptGoesOn(s: Session, s': Session, w: Wait, next: Wait)
    requires OneAccept(s) && OfAccept(w) && OfAccept(next) && w in s.waits
    requires || (!s'.accepting && s'.waits == s.waits - multiset{w})
             || (s'.accepting == s.accepting && s'.waits == s.waits - multiset{w} + multiset{next})
    ensures OneAccept(s')
  {
    assert s.waits[w] == 1;
    var rest := s.waits - multiset{w};
    forall v | OfAccept(v) ensures rest[v] == 0 {}
    if s'.waits == rest + multiset{next} {
      assert next in s'.waits && rest[next] == 0;
      forall v | v in s'.waits && OfAccept(v) ensures v == next { assert v != next ==> v in rest; }
    }
  }

  // ----- getting through ------------------------------------------------------------------

  ghost predicate Does(me: UserId, s: Session, step: Step, s': Session) {
    Enabled(s, step) && s' == Next(s, me, step)
  }

  lemma Do(me: UserId, s: Session, step: Step) returns (s': Session)
    requires Reachable(me, s) && Enabled(s, step)
    ensures Does(me, s, step, s') && Reachable(me, s')
  {
    hide Reachable, Next, Enabled;
    s' := Next(s, me, step);
    RunOneMore(me, s, step);
  }

  /** The call is up: active, our media running, and the peer connected. */
  ghost predicate Talking(s: Session, callId: CallId, conv: string, peer: UserId) {
    && s.state.phase.Active? && s.state.callId == Some(callId) && s.state.conv == Some(conv)
    && s.state.stream.Some? && s.state.stream.value in s.liveStreams
    && peer in s.peers && s.peers[peer].id in s.openPeers && peer in s.state.participants && s.state.participants[peer]
  }

  /** From rest a click or a ring opens its surface, and an accepted ring asks for media; with a call up, none of them does anything. */
  lemma SurfaceOpens(me: UserId, s: Session, callId: CallId, conv: string, direct: bool)
    ensures var s' := Next(s, me, ClickCall(conv, direct));
            if s.state.phase.Idle? then s' == s.(state := IDLE_STATE.(phase := Outgoing, conv := Some(conv), direct := direct),
                                                 waits := s.waits + multiset{StartMedia(conv)}) else s' == s
    ensures var s' := Next(s, me, ClickJoin(callId, conv, direct));
            if s.state.phase.Idle? then s' == s.(state := IDLE_STATE.(phase := Outgoing, conv := Some(conv), direct := direct, joining := true),
                                                 waits := s.waits + multiset{JoinMedia(callId, conv)}) else s' == s
    ensures var s' := Next(s, me, Rings(callId, conv, direct));
            if s.state.phase.Idle? then s' == s.(state := IDLE_STATE.(phase := Incoming, callId := Some(callId), conv := Some(conv), direct := direct),
                                                 failsafe := Some(callId)) else s' == s
    ensures var s' := Next(s, me, ClickAccept);
            if s.state.phase.Incoming? && s.state.callId.Some? && !s.accepting
            then s' == s.(accepting := true, failsafe := None, waits := s.waits + multiset{AcceptMedia(s.state.callId.value)}) else s' == s
    ensures Next(s, me, Connects) == s.(waits := s.waits + multiset{StateAck})
  {
  }

  /** A fresh connection that comes up in an active call with media. */
  lemma TalkingAtLast(me: UserId, s: Session, s1: Session, callId: CallId, conv: string, peer: UserId, initiator: bool)
    requires Repeered(s, s1, peer, initiator) && s1.state.phase.Active? && s1.state.callId == Some(callId) && s1.state.conv == Some(conv)
    requires s1.state.stream.Some? && s1.state.stream.value in s1.liveStreams && peer in s1.state.participants
    ensures Enabled(s1, PeerConnects(peer)) && Talking(Next(s1, me, PeerConnects(peer)), callId, conv, peer)
  {
    hide PeerIds;
    ConnectionComesUp(me, s1, peer);
    hide Next;
  }

  /** From any rest: call, allow the microphone, get an id from the server, and be answered. */
  lemma CallerGetsThrough(me: UserId, s: Session, conv: string, direct: bool, callId: CallId, peer: UserId)
    returns (s1: Session, s2: Session, s3: Session, s4: Session, s': Session)
    requires Reachable(me, s) && s.state.phase.Idle? && peer != me
    ensures Does(me, s, ClickCall(conv, direct), s1) && Does(me, s1, StartMediaComes(conv, true), s2)
    ensures Does(me, s2, InviteAckComes(conv, Invited(callId)), s3)
    ensures Does(me, s3, Joins(callId, peer, {me, peer}), s4) && Does(me, s4, PeerConnects(peer), s')
    ensures Talking(s', callId, conv, peer)
  {
    hide Reachable, Next, Repeered;
    s1 := Do(me, s, ClickCall(conv, direct));
    SurfaceOpens(me, s, callId, conv, direct);
    s2 := Do(me, s1, StartMediaComes(conv, true));
    MediaSettles(me, s1, StartMediaComes(conv, true));
    s3 := Do(me, s2, InviteAckComes(conv, Invited(callId)));
    InviteAckSettles(me, s2, conv, Invited(callId));
    s4 := Do(me, s3, Joins(callId, peer, {me, peer}));
    NewcomerIsOffered(me, s3, callId, peer, {me, peer});
    TalkingAtLast(me, s3, s4, callId, conv, peer, true);
    s' := Do(me, s4, PeerConnects(peer));
  }

  /** From any rest but for an accept still running: be rung, accept, allow the microphone, join, and be offered a connection. */
  lemma CalleeGetsThrough(me: UserId, s: Session, conv: string, direct: bool, callId: CallId, peer: UserId)
    returns (s1: Session, s2: Session, s3: Session, s4: Session, s5: Session, s': Session)
    requires Reachable(me, s) && s.state.phase.Idle? && !s.accepting && peer != me
    ensures Does(me, s, Rings(callId, conv, direct), s1) && Does(me, s1, ClickAccept, s2)
    ensures Does(me, s2, AcceptMediaComes(callId, true), s3)
    ensures Does(me, s3, JoinAckComes(callId, true, Joined(callId, conv, {me, peer})), s4)
    ensures Does(me, s4, Signal(callId, peer, true), s5) && Does(me, s5, PeerConnects(peer), s')
    ensures Talking(s', callId, conv, peer)
  {
    hide Reachable, Next, Repeered;
    s1 := Do(me, s, Rings(callId, conv, direct));
    SurfaceOpens(me, s, callId, conv, direct);
    s2 := Do(me, s1, ClickAccept);
    SurfaceOpens(me, s1, callId, conv, direct);
    s3 := Do(me, s2, AcceptMediaComes(callId, true));
    MediaSettles(me, s2, AcceptMediaComes(callId, true));
    s4, s5, s' := JoinedGetsThrough(me, s3, conv, callId, true, peer);
  }

  /** The second half of every join: the ack, the offer of whoever is in the call, the connection. */
  lemma JoinedGetsThrough(me: UserId, s: Session, conv: string, callId: CallId, accepting: bool, peer: UserId)
    returns (s1: Session, s2: Session, s': Session)
    requires Reachable(me, s) && !s.state.phase.Idle? && s.state.callId == Some(callId) && peer != me
    requires s.state.stream.Some? && s.state.stream.value in s.liveStreams && JoinAck(callId, accepting) in s.waits
    ensures Does(me, s, JoinAckComes(callId, accepting, Joined(callId, conv, {me, peer})), s1)
    ensures Does(me, s1, Signal(callId, peer, true), s2) && Does(me, s2, PeerConnects(peer), s')
    ensures Talking(s', callId, conv, peer)
  {
    hide Reachable, Next, Repeered;
    s1 := Do(me, s, JoinAckComes(callId, accepting, Joined(callId, conv, {me, peer})));
    JoinOkGoesActive(me, s, callId, accepting, callId, conv, {me, peer});
    assert peer in s1.state.participants.Keys;
    s2 := Do(me, s1, Signal(callId, peer, true));
    OfferIsAnswered(me, s1, callId, peer, true);
    TalkingAtLast(me, s1, s2, callId, conv, peer, false);
    s' := Do(me, s2, PeerConnects(peer));
  }
}
