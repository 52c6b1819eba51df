/** What the call session holds at rest, and that its mesh leaks nothing: over every run of events and continuations. */
module ClientCallProofs {
  import opened Common
  import opened ClientCall

  // ----- the invariant -------------------------------------------------------------

  ghost predicate AtRest(s: Session) {
    s.state.phase.Idle? ==> s.state == IDLE_STATE && s.failsafe.None?
  }

  ghost predicate MeshInCall(s: Session) {
    s.peers != map[] || s.timers != {} ==> InMesh(s.state.phase)
  }

  /** Every open connection is its user's entry, and every entry is open. */
  ghost predicate PeersAreOpen(peers: map<UserId, Peer>, open: set<nat>, made: nat) {
    && open == PeerIds(peers)
    && (forall u, v | u in peers && v in peers && u != v :: peers[u].id != peers[v].id)
    && (forall id | id in open :: id < made)
  }

  /** The live streams are the stored one and those it was stored over. */
  ghost predicate StreamsAreKnown(s: Session) {
    && s.liveStreams == StoredStream(s.state) + s.overwritten
    && StoredStream(s.state) !! s.overwritten
    && (forall id | id in s.liveStreams :: id < s.streamsMade)
  }

  ghost predicate Inv(s: Session) {
    AtRest(s) && MeshInCall(s) && PeersAreOpen(s.peers, s.openPeers, s.peersMade) && StreamsAreKnown(s)
  }

  // ----- the pieces ----------------------------------------------------------------

  lemma TeardownKeepsInv(s: Session)
    requires Inv(s)
    ensures Inv(Teardown(s)) && Teardown(s).state == IDLE_STATE
  {
    assert PeerIds(map[]) == {};
  }

  lemma CreateKeepsOpen(peers: map<UserId, Peer>, open: set<nat>, made: nat, u: UserId, peer: Peer)
    requires PeersAreOpen(peers, open, made) && u !in peers && peer.id == made
    ensures PeersAreOpen(peers[u := peer], open + {made}, made + 1)
  {
    var peers' := peers[u := peer];
    forall id ensures id in PeerIds(peers') <==> id in open + {made} {
      if id in open { var v :| v in peers && peers[v].id == id; assert v in peers' && peers'[v].id == id; }
      if id == made { assert u in peers' && peers'[u].id == id; }
    }
  }

  lemma RemoveKeepsOpen(peers: map<UserId, Peer>, open: set<nat>, made: nat, u: UserId)
    requires PeersAreOpen(peers, open, made) && u in peers
    ensures PeersAreOpen(peers - {u}, open - {peers[u].id}, made) && peers[u].id in open
  {
    var peers' := peers - {u};
    forall id ensures id in PeerIds(peers') <==> id in open - {peers[u].id} {
      if id in open && id != peers[u].id { var v :| v in peers && peers[v].id == id; assert v in peers' && peers'[v].id == id; }
    }
  }

  /** Deleting the entry before destroying it keeps onClose from retrying: the peer is just gone. */
  lemma DropIsRemoval(s: Session, u: UserId)
    requires PeersAreOpen(s.peers, s.openPeers, s.peersMade)
    ensures DropPeer(s, u) == if u in s.peers then s.(peers := s.peers - {u}, openPeers := s.openPeers - {s.peers[u].id}) else s
    ensures PeersAreOpen(DropPeer(s, u).peers, DropPeer(s, u).openPeers, s.peersMade) && u !in DropPeer(s, u).peers
  {
    if u in s.peers { RemoveKeepsOpen(s.peers, s.openPeers, s.peersMade, u); }
  }

  /** In the mesh, a user without an entry may be given one and a timer. */
  lemma RepeerKeepsInv(s: Session, u: UserId, initiator: bool, retried: bool)
    requires Inv(s) && InMesh(s.state.phase) && u !in s.peers
    ensures Inv(ArmConnectTimer(CreatePeer(s, u, initiator, retried), u))
  {
    CreateKeepsOpen(s.peers, s.openPeers, s.peersMade, u, Peer(s.peersMade, initiator, retried));
  }

  lemma CloseKeepsInv(s: Session, u: UserId)
    requires Inv(s) && u in s.peers
    ensures Inv(Destroy(s, u, s.peers[u].id))
  {
    hide PeersAreOpen;
    RemoveKeepsOpen(s.peers, s.openPeers, s.peersMade, u);
    var id := s.peers[u].id;
    var s1 := s.(openPeers := s.openPeers - {id}, peers := s.peers - {u});
    var s2 := s1.(state := SetConnection(s1.state, u, false));
    assert Inv(s2);
    RepeerKeepsInv(s2, u, true, true);
  }

  lemma StoreKeepsInv(s: Session)
    requires Inv(s) && !s.state.phase.Idle?
    ensures Inv(SetLocalStream(Acquire(s), s.streamsMade))
  {
    hide PeersAreOpen;
  }

  lemma StopKeepsInv(s: Session)
    requires Inv(s)
    ensures Inv(StopStream(Acquire(s), s.streamsMade))
  {
    hide PeersAreOpen;
    assert StopStream(Acquire(s), s.streamsMade).liveStreams == s.liveStreams;
  }

  // ----- every entry point ---------------------------------------------------------

  lemma StartMediaKeepsInv(s: Session, conv: string, granted: bool)
    requires Inv(s)
    ensures Inv(OnStartMedia(s, conv, granted))
  {
    hide PeersAreOpen;
    StopKeepsInv(s);
    if StillOutgoing(s, conv) { StoreKeepsInv(s); }
  }

  lemma AcceptMediaKeepsInv(s: Session, callId: CallId, granted: bool)
    requires Inv(s)
    ensures Inv(OnAcceptMedia(s, callId, granted))
  {
    hide PeersAreOpen;
    TeardownKeepsInv(s);
    StopKeepsInv(s);
    if s.state.phase.Incoming? { StoreKeepsInv(s); }
  }

  lemma JoinMediaKeepsInv(s: Session, callId: CallId, conv: string, granted: bool)
    requires Inv(s)
    ensures Inv(OnJoinMedia(s, callId, conv, granted))
  {
    hide PeersAreOpen;
    StopKeepsInv(s);
    if StillOutgoing(s, conv) { StoreKeepsInv(s); }
  }

  lemma WaitsDoNotMatter(s: Session, s': Session)
    requires Inv(s) && s' == s.(waits := s'.waits)
    ensures Inv(s')
  {
  }

  /** A change of the rendered state that keeps phase and stream breaks nothing. */
  lemma RenderKeepsInv(s: Session, st: CallState)
    requires Inv(s) && !s.state.phase.Idle? && st.stream == s.state.stream
    requires st.phase == s.state.phase || st.phase.Active? || (InMesh(st.phase) && InMesh(s.state.phase))
    ensures Inv(s.(state := st))
  {
  }

  lemma JoinAckKeepsInv(s: Session, me: UserId, callId: CallId, accepting: bool, answer: JoinAnswer)
    requires Inv(s)
    ensures Inv(OnJoinAck(s, me, callId, accepting, answer))
  {
    hide PeersAreOpen;
    var s1 := s.(pendingJoin := None, accepting := s.accepting && !accepting);
    assert Inv(s1);
    TeardownKeepsInv(s1);
    if answer.Joined? && !s.state.phase.Idle? {
      RenderKeepsInv(s1, SetActive(SyncParticipants(s1.state, answer.participants - {me}, false), Some(answer.callId), Some(answer.conv)));
    }
  }

  lemma StateAckKeepsInv(s: Session, me: UserId, answer: StateAnswer)
    requires Inv(s)
    ensures Inv(OnStateAck(s, me, answer))
  {
    hide PeersAreOpen;
    TeardownKeepsInv(s);
    if answer.InCall? && !s.state.phase.Idle? {
      RenderKeepsInv(s, SetPhaseIfReconnecting(SyncParticipants(s.state, answer.participants - {me}, true)));
    }
  }

  lemma JoinedKeepsInv(s: Session, me: UserId, callId: CallId, user: UserId, joined: set<UserId>)
    requires Inv(s)
    ensures Inv(OnParticipantJoined(s, me, callId, user, joined))
  {
    hide PeersAreOpen, StreamsAreKnown;
    TeardownKeepsInv(s);
    if s.state.phase.Outgoing? || InMesh(s.state.phase) {
      var st := if s.state.phase.Outgoing? then SetActive(s.state, None, None) else s.state;
      var s0 := s.(state := UpsertParticipant(st, user));
      RenderKeepsInv(s, s0.state);
      DropKeepsInv(s0, user);
      RepeerKeepsInv(ClearConnectTimer(DropPeer(s0, user), user), user, true, false);
    }
  }

  lemma DropKeepsInv(s: Session, u: UserId)
    requires Inv(s)
    ensures Inv(DropPeer(s, u)) && Inv(ClearConnectTimer(DropPeer(s, u), u)) && u !in DropPeer(s, u).peers
    ensures DropPeer(s, u).state == s.state
  {
    hide PeersAreOpen;
    DropIsRemoval(s, u);
  }

  lemma LeftKeepsInv(s: Session, me: UserId, callId: CallId, user: UserId)
    requires Inv(s)
    ensures Inv(OnParticipantLeft(s, me, callId, user))
  {
    hide PeersAreOpen, StreamsAreKnown;
    TeardownKeepsInv(s);
    DropKeepsInv(s, user);
    var s1 := ClearConnectTimer(DropPeer(s, user), user);
    if s.state.callId == Some(callId) { RenderKeepsInv(s1, RemoveParticipant(s1.state, user)); }
  }

  lemma SignalKeepsInv(s: Session, callId: CallId, from: UserId, isOffer: bool)
    requires Inv(s)
    ensures Inv(OnRtcSignal(s, callId, from, isOffer))
  {
    hide PeersAreOpen, StreamsAreKnown;
    if InMesh(s.state.phase) {
      if from in s.peers {
        DropKeepsInv(s, from);
        var s1 := ClearConnectTimer(DropPeer(s, from), from);
        RenderKeepsInv(s1, SetConnection(s1.state, from, false));
        RepeerKeepsInv(s1.(state := SetConnection(s1.state, from, false)), from, false, false);
      } else {
        RepeerKeepsInv(s, from, false, false);
      }
    }
  }

  lemma WindowKeepsInv(s: Session, u: UserId)
    requires Inv(s)
    ensures Inv(OnConnectWindowExpired(s, u))
  {
    hide PeersAreOpen, StreamsAreKnown;
    var s1 := s.(timers := s.timers - {u});
    assert Inv(s1) by { assert StreamsAreKnown(s1) by { SameStreams(s, s1); } }
    TeardownKeepsInv(s1);
    DropKeepsInv(s1, u);
    if InMesh(s.state.phase) { RenderKeepsInv(DropPeer(s1, u), RemoveParticipant(DropPeer(s1, u).state, u)); }
  }

  lemma SameStreams(s: Session, s': Session)
    requires StreamsAreKnown(s) && s'.state.stream == s.state.stream
    requires s'.liveStreams == s.liveStreams && s'.overwritten == s.overwritten && s'.streamsMade == s.streamsMade
    ensures StreamsAreKnown(s')
  {
  }

  lemma PeerConnectKeepsInv(s: Session, u: UserId)
    requires Inv(s) && u in s.peers
    ensures Inv(OnPeerConnect(s, u))
  {
    var peers' := s.peers[u := s.peers[u].(retried := false)];
    assert PeerIds(peers') == PeerIds(s.peers) by {
      assert forall v | v in s.peers :: peers'[v].id == s.peers[v].id;
    }
  }

  lemma ClicksKeepInv(s: Session, callId: CallId, conv: string, direct: bool)
    requires Inv(s)
    ensures Inv(StartCall(s, conv, direct)) && Inv(BeginJoin(s, callId, conv, direct))
    ensures Inv(AcceptCall(s)) && Inv(Decline(s)) && Inv(HangUp(s))
  {
    hide PeersAreOpen;
    TeardownKeepsInv(s);
  }

  lemma RingKeepsInv(s: Session, callId: CallId, conv: string, direct: bool)
    requires Inv(s)
    ensures Inv(OnRing(s, callId, conv, direct)) && Inv(OnRingFailsafe(s, callId)) && Inv(DismissRing(s, callId))
  {
    hide PeersAreOpen;
    TeardownKeepsInv(s);
    TeardownKeepsInv(s.(failsafe := None));
  }

  lemma EndingKeepsInv(s: Session, callId: CallId, byClient: bool)
    requires Inv(s)
    ensures Inv(OnCallEnded(s, callId)) && Inv(OnDisconnect(s, byClient)) && Inv(Resync(s))
  {
    hide PeersAreOpen;
    TeardownKeepsInv(s);
  }

  lemma InviteAckKeepsInv(s: Session, conv: string, answer: InviteAnswer)
    requires Inv(s)
    ensures Inv(OnInviteAck(s, conv, answer))
  {
    hide PeersAreOpen;
    TeardownKeepsInv(s);
  }

  lemma NextKeepsInv(s: Session, me: UserId, step: Step)
    requires Inv(s) && Enabled(s, step)
    ensures Inv(Next(s, me, step))
  {
    hide Inv, OnStartMedia, OnInviteAck, OnAcceptMedia, OnJoinMedia, OnJoinAck, OnStateAck, OnParticipantJoined, OnParticipantLeft,
      OnRtcSignal, OnConnectWindowExpired, OnPeerConnect, Destroy, Teardown, StartCall, BeginJoin, AcceptCall, Decline, HangUp, OnRing,
      OnRingFailsafe, DismissRing, OnCallEnded, OnDisconnect, Resync;
    match step
    case InviteAckComes(conv, answer) =>
      var s0 := Came(s, InviteAck(conv));
      WaitsDoNotMatter(s, s0);
      InviteAckKeepsInv(s0, conv, answer);
    case JoinAckComes(callId, accepting, answer) =>
      var s0 := Came(s, JoinAck(callId, accepting));
      WaitsDoNotMatter(s, s0);
      JoinAckKeepsInv(s0, me, callId, accepting, answer);
    case StateAckComes(answer) =>
      var s0 := Came(s, StateAck);
      WaitsDoNotMatter(s, s0);
      StateAckKeepsInv(s0, me, answer);
    case Joins(callId, user, joined) => JoinedKeepsInv(s, me, callId, user, joined);
    case Leaves(callId, user) => LeftKeepsInv(s, me, callId, user);
    case Signal(callId, from, isOffer) => SignalKeepsInv(s, callId, from, isOffer);
    case PeerConnects(u) => PeerConnectKeepsInv(s, u);
    case PeerCloses(u) => CloseKeepsInv(s, u);
    case WindowExpires(u) => WindowKeepsInv(s, u);
    case StartMediaComes(conv, granted) =>
      var s0 := Came(s, StartMedia(conv));
      WaitsDoNotMatter(s, s0);
      StartMediaKeepsInv(s0, conv, granted);
    case AcceptMediaComes(callId, granted) =>
      var s0 := Came(s, AcceptMedia(callId));
      WaitsDoNotMatter(s, s0);
      AcceptMediaKeepsInv(s0, callId, granted);
    case JoinMediaComes(callId, conv, granted) =>
      var s0 := Came(s, JoinMedia(callId, conv));
      WaitsDoNotMatter(s, s0);
      JoinMediaKeepsInv(s0, callId, conv, granted);
    case ClickCall(conv, direct) => ClicksKeepInv(s, "", conv, direct);
    case ClickJoin(callId, conv, direct) => ClicksKeepInv(s, callId, conv, direct);
    case ClickAccept => ClicksKeepInv(s, "", "", true);
    case ClickDecline => ClicksKeepInv(s, "", "", true);
    case ClickHangUp => ClicksKeepInv(s, "", "", true);
    case Rings(callId, conv, direct) => RingKeepsInv(s, callId, conv, direct);
    case FailsafeFires => RingKeepsInv(s, s.failsafe.value, "", true);
    case RingDismissed(callId) => RingKeepsInv(s, callId, "", true);
    case Ends(callId) => EndingKeepsInv(s, callId, true);
    case Connects => EndingKeepsInv(s, "", true);
    case Disconnects(byClient) => EndingKeepsInv(s, "", byClient);
  }

  lemma {:induction false} RunKeepsInv(me: UserId, steps: seq<Step>)
    requires Run(me, steps).Some?
    ensures Inv(Run(me, steps).value)
  {
    hide Inv, Next, Enabled;
    if steps == [] {
      StartInv();
    } else {
      RunKeepsInv(me, steps[..|steps|-1]);
      NextKeepsInv(Run(me, steps[..|steps|-1]).value, me, steps[|steps|-1]);
    }
  }

  lemma StartInv()
    ensures Inv(START)
  {
    assert PeerIds(map[]) == {};
  }

  lemma ReachableInv(me: UserId, s: Session)
    requires Reachable(me, s)
    ensures Inv(s)
  {
    hide Inv;
    var steps :| Run(me, steps) == Some(s);
    RunKeepsInv(me, steps);
  }

  // ----- what it means -------------------------------------------------------------

  /** An idle session holds no peer, no timer, no ring failsafe and no stored stream, and no connection is left open. */
  lemma IdleHoldsNothing(me: UserId, s: Session)
    requires Reachable(me, s) && s.state.phase.Idle?
    ensures s.peers == map[] && s.timers == {} && s.failsafe == None && s.state.stream == None
    ensures s.openPeers == {} && s.liveStreams == s.overwritten
  {
    hide Inv;
    ReachableInv(me, s);
    RestingHoldsNothing(s);
  }

  ghost predicate HoldsNothing(s: Session) {
    && s.peers == map[] && s.timers == {} && s.failsafe == None && s.state.stream == None
    && s.openPeers == {} && s.liveStreams == s.overwritten
  }

  lemma RestingHoldsNothing(s: Session)
    requires Inv(s) && s.state.phase.Idle?
    ensures HoldsNothing(s)
  {
    assert PeerIds(map[]) == {};
  }

  /** Peers and connect windows exist only while a call is active or reconnecting, and no connection outlives its entry. */
  lemma MeshLivesInCall(me: UserId, s: Session)
    requires Reachable(me, s)
    ensures s.peers != map[] || s.timers != {} ==> InMesh(s.state.phase)
    ensures forall id :: id in s.openPeers <==> exists u :: u in s.peers && s.peers[u].id == id
  {
    ReachableInv(me, s);
  }

  /** A media await comes back granted, and the session still wants it. */
  predicate MediaIsStored(s: Session, step: Step) {
    match step
    case StartMediaComes(conv, granted) => granted && StillOutgoing(s, conv)
    case JoinMediaComes(_, conv, granted) => granted && StillOutgoing(s, conv)
    case AcceptMediaComes(callId, granted) => granted && s.state.phase.Incoming? && s.state.callId == Some(callId)
    case _ => false
  }

  /** What a step may leave running unstored: exactly a stream arriving where one is stored already. */
  lemma StreamIsOverwrittenExactly(me: UserId, s: Session, step: Step)
    requires Reachable(me, s) && Enabled(s, step)
    ensures Next(s, me, step).overwritten != s.overwritten <==> s.state.stream.Some? && MediaIsStored(s, step)
  {
    hide Reachable, Next;
    ReachableInv(me, s);
    if step.StartMediaComes? || step.JoinMediaComes? || step.AcceptMediaComes? {
      MediaOverwrites(me, s, step);
    } else {
      OthersOverwriteNothing(me, s, step);
    }
  }

  lemma MediaOverwrites(me: UserId, s: Session, step: Step)
    requires Inv(s) && Enabled(s, step) && (step.StartMediaComes? || step.AcceptMediaComes? || step.JoinMediaComes?)
    ensures Next(s, me, step).overwritten != s.overwritten <==> s.state.stream.Some? && MediaIsStored(s, step)
  {
    hide Inv, OnStartMedia, OnAcceptMedia, OnJoinMedia;
    match step
    case StartMediaComes(conv, granted) =>
      WaitsDoNotMatter(s, Came(s, StartMedia(conv)));
      StartMediaOverwrites(Came(s, StartMedia(conv)), conv, granted);
    case AcceptMediaComes(callId, granted) =>
      WaitsDoNotMatter(s, Came(s, AcceptMedia(callId)));
      AcceptMediaOverwrites(Came(s, AcceptMedia(callId)), callId, granted);
    case JoinMediaComes(callId, conv, granted) =>
      WaitsDoNotMatter(s, Came(s, JoinMedia(callId, conv)));
      JoinMediaOverwrites(Came(s, JoinMedia(callId, conv)), callId, conv, granted);
  }

  lemma StartMediaOverwrites(s: Session, conv: string, granted: bool)
    requires Inv(s)
    ensures OnStartMedia(s, conv, granted).overwritten != s.overwritten <==> s.state.stream.Some? && granted && StillOutgoing(s, conv)
  {
    hide Inv, SetLocalStream;
    StoreOverwrites(s);
  }

  lemma AcceptMediaOverwrites(s: Session, callId: CallId, granted: bool)
    requires Inv(s)
    ensures OnAcceptMedia(s, callId, granted).overwritten != s.overwritten <==>
              s.state.stream.Some? && granted && s.state.phase.Incoming? && s.state.callId == Some(callId)
  {
    hide Inv, SetLocalStream, PeerIds;
    StoreOverwrites(s);
  }

  lemma JoinMediaOverwrites(s: Session, callId: CallId, conv: string, granted: bool)
    requires Inv(s)
    ensures OnJoinMedia(s, callId, conv, granted).overwritten != s.overwritten <==> s.state.stream.Some? && granted && StillOutgoing(s, conv)
  {
    hide Inv, SetLocalStream;
    StoreOverwrites(s);
  }

  lemma StoreOverwrites(s: Session)
    requires Inv(s)
    ensures !s.state.phase.Idle? ==>
              (SetLocalStream(Acquire(s), s.streamsMade).overwritten != s.overwritten <==> s.state.stream.Some?)
  {
    hide PeersAreOpen;
    if s.state.stream.Some? { assert s.state.stream.value in StoredStream(s.state); }
  }

  lemma OthersOverwriteNothing(me: UserId, s: Session, step: Step)
    requires Enabled(s, step) && !step.StartMediaComes? && !step.AcceptMediaComes? && !step.JoinMediaComes?
    ensures Next(s, me, step).overwritten == s.overwritten
  {
    hide PeerIds, SyncParticipants, SetActive, SetPhaseIfReconnecting, DropPeer, Destroy, CreatePeer;
    match step
    case Joins(_, user, _) => PeersOverwriteNothing(s.(state := UpsertParticipant(JoinedState(s), user)), user);
    case Leaves(_, user) => PeersOverwriteNothing(s, user);
    case Signal(_, from, _) => PeersOverwriteNothing(s, from);
    case WindowExpires(u) => PeersOverwriteNothing(s.(timers := s.timers - {u}), u);
    case PeerCloses(u) => DestroyOverwritesNothing(s, u, s.peers[u].id);
    case _ =>
  }

  function JoinedState(s: Session): CallState { if s.state.phase.Outgoing? then SetActive(s.state, None, None) else s.state }

  lemma DestroyOverwritesNothing(s: Session, u: UserId, id: nat)
    ensures Destroy(s, u, id).overwritten == s.overwritten
  {
    hide SetConnection;
  }

  lemma PeersOverwriteNothing(s: Session, u: UserId)
    ensures DropPeer(s, u).overwritten == s.overwritten
    ensures forall s1: Session, initiator, retried :: CreatePeer(s1, u, initiator, retried).overwritten == s1.overwritten
  {
    hide Destroy;
    if u in s.peers { DestroyOverwritesNothing(s.(peers := s.peers - {u}), u, s.peers[u].id); }
  }

  lemma RunOneMore(me: UserId, s: Session, step: Step)
    requires Reachable(me, s) && Enabled(s, step)
    ensures Reachable(me, Next(s, me, step))
  {
    hide Next, Enabled;
    var steps :| Run(me, steps) == Some(s);
    assert (steps + [step])[..|steps|] == steps;
    assert Run(me, steps + [step]) == Some(Next(s, me, step));
  }

  /** A called conversation `conv`, its permission prompt up, and perhaps another one from before. */
  function Prompting(conv: string, waits: multiset<Wait>): Session {
    START.(state := IDLE_STATE.(phase := Outgoing, conv := Some(conv), direct := true), waits := waits)
  }

  lemma RedialWithPromptUp(me: UserId, conv: string)
    ensures Reachable(me, Prompting(conv, multiset{StartMedia(conv), StartMedia(conv)}))
  {
    assert Run(me, []) == Some(START);
    RunOneMore(me, START, ClickCall(conv, true));
    var s1 := Prompting(conv, multiset{StartMedia(conv)});
    assert Next(START, me, ClickCall(conv, true)) == s1;
    RunOneMore(me, s1, ClickHangUp);
    var s2 := START.(waits := multiset{StartMedia(conv)});
    assert Next(s1, me, ClickHangUp) == s2 by { assert PeerIds(map[]) == {}; }
    RunOneMore(me, s2, ClickCall(conv, true));
    assert Next(s2, me, ClickCall(conv, true)) == Prompting(conv, multiset{StartMedia(conv), StartMedia(conv)});
  }

  /** The session with this stream stored and these running. */
  function Streaming(s: Session, stream: nat, live: set<nat>, overwritten: set<nat>, waits: multiset<Wait>): Session {
    s.(state := s.state.(stream := Some(stream)), liveStreams := live, overwritten := overwritten, streamsMade := stream + 1, waits := waits)
  }

  /**
   The camera light can outlive the call: call, hang up and call again while the first
   permission prompt is up; both streams arrive, the second is stored over the first,
   and hanging up stops only the second.
   */
  lemma RedialLeavesStreamRunning(me: UserId, conv: string) returns (s: Session)
    ensures Reachable(me, s) && s.state == IDLE_STATE && s.liveStreams == {0}
  {
    RedialStoresTwice(me, conv);
    var s5 := TwoStreams(conv);
    RunOneMore(me, s5, ClickHangUp);
    hide Run;
    s := Next(s5, me, ClickHangUp);
  }

  /** Both streams have arrived; the second is stored. */
  function TwoStreams(conv: string): Session {
    Streaming(Prompting(conv, multiset{}), 1, {0, 1}, {0}, multiset{InviteAck(conv), InviteAck(conv)})
  }

  lemma RedialStoresTwice(me: UserId, conv: string)
    ensures Reachable(me, TwoStreams(conv))
  {
    hide Next, Enabled, Run, Prompting, OneStream, TwoStreams, Reachable;
    RedialWithPromptUp(me, conv);
    FirstStreamComes(me, conv);
    RunOneMore(me, Prompting(conv, multiset{StartMedia(conv), StartMedia(conv)}), StartMediaComes(conv, true));
    SecondStreamComes(me, conv);
    RunOneMore(me, OneStream(conv), StartMediaComes(conv, true));
  }

  function OneStream(conv: string): Session {
    Streaming(Prompting(conv, multiset{}), 0, {0}, {}, multiset{StartMedia(conv), InviteAck(conv)})
  }

  lemma FirstStreamComes(me: UserId, conv: string)
    ensures var s := Prompting(conv, multiset{StartMedia(conv), StartMedia(conv)});
            Enabled(s, StartMediaComes(conv, true)) && Next(s, me, StartMediaComes(conv, true)) == OneStream(conv)
  {
    assert multiset{StartMedia(conv), StartMedia(conv)} - multiset{StartMedia(conv)} == multiset{StartMedia(conv)};
  }

  lemma SecondStreamComes(me: UserId, conv: string)
    ensures Enabled(OneStream(conv), StartMediaComes(conv, true))
    ensures Next(OneStream(conv), me, StartMediaComes(conv, true)) == TwoStreams(conv)
  {
    assert multiset{StartMedia(conv), InviteAck(conv)} - multiset{StartMedia(conv)} == multiset{InviteAck(conv)};
  }
}
