/**
 The session's module variables, changed in place. Every handler does what its function in
 ClientCall says, and keeps the session's invariant.
 */
module ClientSession {
  import opened Common
  import opened ClientCall
  import opened ClientCallProofs

  lemma PeerIdsWithout(peers: map<UserId, Peer>, u: UserId)
    requires u in peers
    ensures PeerIds(peers) == PeerIds(peers - {u}) + {peers[u].id}
  {
    forall id ensures id in PeerIds(peers) <==> id in PeerIds(peers - {u}) + {peers[u].id} {
      if v :| v in peers && v != u && peers[v].id == id { assert v in peers - {u} && (peers - {u})[v].id == id; }
    }
  }

  /** Destroying a peer that is nobody's entry closes it and nothing more. */
  lemma DestroyUnlisted(s: Session, u: UserId, id: nat)
    requires s.peers == map[]
    ensures Destroy(s, u, id) == s.(openPeers := s.openPeers - {id})
  {
  }

  lemma TornDownHoldsNothing(s: Session)
    requires Inv(s)
    ensures Inv(Teardown(s)) && HoldsNothing(Teardown(s))
  {
    hide Inv;
    TeardownKeepsInv(s);
    RestingHoldsNothing(Teardown(s));
  }

  class CallSession {
    var state: CallState
    var peers: map<UserId, Peer>
    var timers: set<UserId>
    var failsafe: Option<CallId>
    var pendingJoin: Option<CallId>
    var accepting: bool
    var openPeers: set<nat>
    var peersMade: nat
    var liveStreams: set<nat>
    var streamsMade: nat
    const me: UserId
    ghost var waits: multiset<Wait>
    ghost var overwritten: set<nat>

    ghost function View(): Session
      reads this
    {
      Session(state, peers, timers, failsafe, pendingJoin, accepting, waits,
              openPeers, peersMade, liveStreams, streamsMade, overwritten)
    }

    constructor (me: UserId)
      ensures View() == START && this.me == me
    {
      this.me := me;
      state, peers, timers, failsafe, pendingJoin, accepting := IDLE_STATE, map[], {}, None, None, false;
      openPeers, peersMade, liveStreams, streamsMade, waits, overwritten := {}, 0, {}, 0, multiset{}, {};
    }

    // ----- peers -------------------------------------------------------------------

    method MakePeer(u: UserId, initiator: bool, retried: bool)
      modifies this`peers, this`openPeers, this`peersMade
      ensures View() == CreatePeer(old(View()), u, initiator, retried)
    {
      if state.stream.None? || state.callId.None? { return; }
      peers := peers[u := Peer(peersMade, initiator, retried)];
      openPeers := openPeers + {peersMade};
      peersMade := peersMade + 1;
    }

    method PeerClosed(u: UserId, id: nat)
      modifies this
      ensures View() == HandlePeerClose(old(View()), u, id)
    {
      if u !in peers || peers[u].id != id { return; }
      var entry := peers[u];
      peers := peers - {u};
      if !InMesh(state.phase) { return; }
      state := SetConnection(state, u, false);
      if entry.initiator && !entry.retried {
        MakePeer(u, true, true);
        timers := timers + {u};
      }
    }

    method DestroyPeer(u: UserId, id: nat)
      modifies this
      ensures View() == Destroy(old(View()), u, id)
      ensures old(Inv(View()) && u in peers && peers[u].id == id) ==> Inv(View())
    {
      hide Inv;
      if Inv(View()) && u in peers && peers[u].id == id { CloseKeepsInv(View(), u); }
      if id !in openPeers { return; }
      openPeers := openPeers - {id};
      PeerClosed(u, id);
    }

    /** The entry goes first, so its onClose finds it gone. */
    method RemovePeer(u: UserId)
      modifies this
      ensures View() == DropPeer(old(View()), u)
    {
      if u in peers {
        var entry := peers[u];
        peers := peers - {u};
        DestroyPeer(u, entry.id);
      }
    }

    method DestroyAll(entries: map<UserId, Peer>)
      requires peers == map[]
      modifies this
      ensures View() == old(View()).(openPeers := old(openPeers) - PeerIds(entries))
    {
      hide HandlePeerClose;
      var rest := entries;
      while rest != map[]
        invariant openPeers - PeerIds(rest) == old(openPeers) - PeerIds(entries)
        invariant View() == old(View()).(openPeers := openPeers)
        decreases rest.Keys
      {
        var u :| u in rest;
        PeerIdsWithout(rest, u);
        DestroyUnlisted(View(), u, rest[u].id);
        DestroyPeer(u, rest[u].id);
        rest := rest - {u};
      }
      assert PeerIds(map[]) == {};
    }

    method StopStored()
      modifies this`liveStreams
      ensures liveStreams == old(liveStreams) - StoredStream(state)
    {
      if state.stream.Some? { liveStreams := liveStreams - {state.stream.value}; }
    }

    method TearDown()
      modifies this
      ensures View() == Teardown(old(View()))
      ensures old(Inv(View())) ==> Inv(View()) && HoldsNothing(View())
    {
      hide Inv, HoldsNothing;
      if Inv(View()) { TornDownHoldsNothing(View()); }
      hide PeerIds, ResetCall;
      var entries := peers;
      peers := map[];
      DestroyAll(entries);
      timers, failsafe := {}, None;
      StopStored();
      state := ResetCall(state);
    }

    method ConnectWindowExpired(u: UserId)
      modifies this
      ensures View() == OnConnectWindowExpired(old(View()), u)
      ensures old(Inv(View())) ==> Inv(View())
    {
      hide Inv;
      if Inv(View()) { WindowKeepsInv(View(), u); }
      timers := timers - {u};
      if !InMesh(state.phase) { return; }
      if u !in state.participants || state.participants[u] { return; }
      if state.direct {
        Hang();
        return;
      }
      RemovePeer(u);
      state := RemoveParticipant(state, u);
    }

    // ----- clicks and their continuations ------------------------------------------

    method Hang()
      modifies this
      ensures View() == HangUp(old(View()))
      ensures old(Inv(View())) ==> Inv(View())
    {
      hide Inv;
      if Inv(View()) { ClicksKeepInv(View(), "", "", true); }
      if !state.phase.Idle? { TearDown(); }
    }

    method Start(conv: string, direct: bool)
      modifies this`state, this`waits
      ensures View() == StartCall(old(View()), conv, direct)
      ensures old(Inv(View())) ==> Inv(View())
    {
      hide Inv;
      if Inv(View()) { ClicksKeepInv(View(), "", conv, direct); }
      if !state.phase.Idle? { return; }
      state := BeginOutgoing(state, conv, direct, false);
      waits := waits + multiset{StartMedia(conv)};
    }

    method Join(callId: CallId, conv: string, direct: bool)
      modifies this`state, this`waits
      ensures View() == BeginJoin(old(View()), callId, conv, direct)
      ensures old(Inv(View())) ==> Inv(View())
    {
      hide Inv;
      if Inv(View()) { ClicksKeepInv(View(), callId, conv, direct); }
      if !state.phase.Idle? { return; }
      state := BeginOutgoing(state, conv, direct, true);
      waits := waits + multiset{JoinMedia(callId, conv)};
    }

    method Accept()
      modifies this`accepting, this`failsafe, this`waits
      ensures View() == AcceptCall(old(View()))
      ensures old(Inv(View())) ==> Inv(View())
    {
      hide Inv;
      if Inv(View()) { ClicksKeepInv(View(), "", "", true); }
      if !state.phase.Incoming? || state.callId.None? || accepting { return; }
      accepting := true;
      failsafe := None;
      waits := waits + multiset{AcceptMedia(state.callId.value)};
    }

    method StoreStream(stream: nat)
      modifies this`state, this`overwritten
      ensures View() == SetLocalStream(old(View()), stream)
    {
      if state.phase.Idle? { return; }
      overwritten := overwritten + StoredStream(state);
      state := state.(stream := Some(stream));
    }

    method AcquireMedia() returns (stream: nat)
      modifies this`liveStreams, this`streamsMade
      ensures stream == old(streamsMade) && View() == Acquire(old(View()))
    {
      stream := streamsMade;
      liveStreams := liveStreams + {stream};
      streamsMade := streamsMade + 1;
    }

    method EmitJoin(callId: CallId, accept: bool)
      modifies this`pendingJoin, this`waits
      ensures View() == JoinById(old(View()), callId, accept)
    {
      pendingJoin := Some(callId);
      waits := waits + multiset{JoinAck(callId, accept)};
    }

    method StartMediaBack(conv: string, granted: bool)
      modifies this
      ensures View() == OnStartMedia(old(View()), conv, granted)
      ensures old(Inv(View())) ==> Inv(View())
    {
      hide Inv;
      if Inv(View()) { StartMediaKeepsInv(View(), conv, granted); }
      if !granted { return; }
      var stream := AcquireMedia();
      if !state.phase.Outgoing? || state.conv != Some(conv) {
        liveStreams := liveStreams - {stream};
        return;
      }
      StoreStream(stream);
      waits := waits + multiset{InviteAck(conv)};
    }

    method InviteAckBack(conv: string, answer: InviteAnswer)
      modifies this
      ensures View() == OnInviteAck(old(View()), conv, answer)
      ensures old(Inv(View())) ==> Inv(View())
    {
      hide Inv;
      if Inv(View()) { InviteAckKeepsInv(View(), conv, answer); }
      if !state.phase.Outgoing? || state.conv != Some(conv) { return; }
      match answer {
        case Invited(callId) =>
          state := SetCallId(state, callId);
        case AlreadyActive(callId) =>
          state := SetCallId(state, callId);
          EmitJoin(callId, false);
        case Refused =>
          TearDown();
      }
    }

    method AcceptMediaBack(callId: CallId, granted: bool)
      modifies this
      ensures View() == OnAcceptMedia(old(View()), callId, granted)
      ensures old(Inv(View())) ==> Inv(View())
    {
      hide Inv;
      if Inv(View()) { AcceptMediaKeepsInv(View(), callId, granted); }
      if !granted {
        TearDown();
        accepting := false;
        return;
      }
      var stream := AcquireMedia();
      if !state.phase.Incoming? || state.callId != Some(callId) {
        liveStreams := liveStreams - {stream};
        accepting := false;
        return;
      }
      StoreStream(stream);
      EmitJoin(callId, true);
    }

    method JoinMediaBack(callId: CallId, conv: string, granted: bool)
      modifies this
      ensures View() == OnJoinMedia(old(View()), callId, conv, granted)
      ensures old(Inv(View())) ==> Inv(View())
    {
      hide Inv;
      if Inv(View()) { JoinMediaKeepsInv(View(), callId, conv, granted); }
      if !granted { return; }
      var stream := AcquireMedia();
      if !state.phase.Outgoing? || state.conv != Some(conv) {
        liveStreams := liveStreams - {stream};
        return;
      }
      StoreStream(stream);
      state := SetCallId(state, callId);
      EmitJoin(callId, false);
    }

    method JoinAckBack(callId: CallId, accept: bool, answer: JoinAnswer)
      modifies this
      ensures View() == OnJoinAck(old(View()), me, callId, accept, answer)
      ensures old(Inv(View())) ==> Inv(View())
    {
      hide Inv;
      if Inv(View()) { JoinAckKeepsInv(View(), me, callId, accept, answer); }
      hide SyncParticipants, SetActive, Teardown;
      pendingJoin := None;
      if accept { accepting := false; }
      if state.callId != Some(callId) || state.phase.Idle? { return; }
      match answer {
        case NotJoined =>
          TearDown();
        case Joined(id, conv, participants) =>
          state := SyncParticipants(state, participants - {me}, false);
          state := SetActive(state, Some(id), Some(conv));
          timers := timers + participants;
      }
    }

    method StateAckBack(answer: StateAnswer)
      modifies this
      ensures View() == OnStateAck(old(View()), me, answer)
      ensures old(Inv(View())) ==> Inv(View())
    {
      hide Inv;
      if Inv(View()) { StateAckKeepsInv(View(), me, answer); }
      if answer.NoAnswer? { return; }
      var before := state;
      var inCall := before.callId.Some? && (before.phase.Outgoing? || before.phase.Active? || before.phase.Reconnecting?);
      if !inCall { return; }
      if answer.NoCall? || before.callId != Some(answer.callId) {
        TearDown();
        return;
      }
      state := SyncParticipants(state, answer.participants - {me}, true);
      if before.phase.Reconnecting? { state := SetPhase(state, Active); }
      if !before.phase.Outgoing? { EmitJoin(answer.callId, false); }
    }

    // ----- socket events -----------------------------------------------------------

    method Ring(callId: CallId, conv: string, direct: bool)
      modifies this`state, this`failsafe
      ensures View() == OnRing(old(View()), callId, conv, direct)
      ensures old(Inv(View())) ==> Inv(View())
    {
      hide Inv;
      if Inv(View()) { RingKeepsInv(View(), callId, conv, direct); }
      if !state.phase.Idle? { return; }
      state := SetIncoming(state, callId, conv, direct);
      failsafe := Some(callId);
    }

    method RingFailsafe(callId: CallId)
      modifies this
      ensures View() == OnRingFailsafe(old(View()), callId)
      ensures old(Inv(View())) ==> Inv(View())
    {
      hide Inv;
      if Inv(View()) { RingKeepsInv(View(), callId, "", true); }
      failsafe := None;
      if state.phase.Incoming? && state.callId == Some(callId) { TearDown(); }
    }

    method ParticipantJoined(callId: CallId, user: UserId, joined: set<UserId>)
      modifies this
      ensures View() == OnParticipantJoined(old(View()), me, callId, user, joined)
      ensures old(Inv(View())) ==> Inv(View())
    {
      hide Inv;
      if Inv(View()) { JoinedKeepsInv(View(), me, callId, user, joined); }
      hide DropPeer, SetActive, UpsertParticipant, Teardown;
      if user == me {
        if state.phase.Incoming? && state.callId == Some(callId) && pendingJoin != Some(callId) { TearDown(); }
        return;
      }
      if state.callId != Some(callId) || me !in joined { return; }
      if state.phase.Outgoing? {
        state := SetActive(state, None, None);
      } else if !InMesh(state.phase) {
        return;
      }
      state := UpsertParticipant(state, user);
      RemovePeer(user);
      timers := timers - {user};
      MakePeer(user, true, false);
      timers := timers + {user};
    }

    method ParticipantLeft(callId: CallId, user: UserId)
      modifies this
      ensures View() == OnParticipantLeft(old(View()), me, callId, user)
      ensures old(Inv(View())) ==> Inv(View())
    {
      hide Inv;
      if Inv(View()) { LeftKeepsInv(View(), me, callId, user); }
      if state.callId != Some(callId) { return; }
      if user == me {
        TearDown();
        return;
      }
      RemovePeer(user);
      timers := timers - {user};
      state := RemoveParticipant(state, user);
    }

    method CallEnded(callId: CallId)
      modifies this
      ensures View() == OnCallEnded(old(View()), callId)
      ensures old(Inv(View())) ==> Inv(View())
    {
      hide Inv;
      if Inv(View()) { EndingKeepsInv(View(), callId, true); }
      if state.callId == Some(callId) { TearDown(); }
    }

    method RtcSignal(callId: CallId, from: UserId, isOffer: bool)
      modifies this
      ensures View() == OnRtcSignal(old(View()), callId, from, isOffer)
      ensures old(Inv(View())) ==> Inv(View())
    {
      hide Inv;
      if Inv(View()) { SignalKeepsInv(View(), callId, from, isOffer); }
      if state.callId != Some(callId) || !InMesh(state.phase) || !isOffer { return; }
      if from in peers {
        RemovePeer(from);
        timers := timers - {from};
        state := SetConnection(state, from, false);
      } else if from !in state.participants {
        return;
      }
      MakePeer(from, false, false);
      timers := timers + {from};
    }

    method Disconnected(byClient: bool)
      modifies this
      ensures View() == OnDisconnect(old(View()), byClient)
      ensures old(Inv(View())) ==> Inv(View())
    {
      hide Inv;
      if Inv(View()) { EndingKeepsInv(View(), "", byClient); }
      if byClient {
        TearDown();
      } else if state.phase.Active? {
        state := SetPhase(state, Reconnecting);
      }
    }
  }
}
