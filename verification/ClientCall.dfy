/**
 The browser's call session: phase, peers, timers and media, changed by socket events,
 clicks, timers and the continuations of its awaits. Each function below is what one
 such entry point does before it returns or awaits.
 */
module ClientCall {
  import opened Common

  type UserId = string

  type CallId = string

  datatype Phase = Idle | Outgoing | Incoming | Active | Reconnecting

  /** The rendered state: participants map to whether they are connected. */
  datatype CallState = CallState(
    phase: Phase, callId: Option<CallId>, conv: Option<string>, direct: bool, joining: bool,
    stream: Option<nat>, participants: map<UserId, bool>)

  const IDLE_STATE := CallState(Idle, None, None, false, false, None, map[])

  datatype Peer = Peer(id: nat, initiator: bool, retried: bool)

  /** An await that has not come back. */
  datatype Wait =
    | StartMedia(conv: string)
    | InviteAck(conv: string)
    | AcceptMedia(callId: CallId)
    | JoinMedia(callId: CallId, conv: string)
    | JoinAck(callId: CallId, accepting: bool)
    | StateAck

  /**
   `failsafe` is the call the armed ring failsafe is for. `openPeers` and `liveStreams`
   are what the browser still runs: connections not destroyed, media not stopped;
   `overwritten` logs the streams another one replaced in the state.
   */
  datatype Session = Session(
    state: CallState, peers: map<UserId, Peer>, timers: set<UserId>, failsafe: Option<CallId>,
    pendingJoin: Option<CallId>, accepting: bool, waits: multiset<Wait>,
    openPeers: set<nat>, peersMade: nat, liveStreams: set<nat>, streamsMade: nat, overwritten: set<nat>)

  const START := Session(IDLE_STATE, map[], {}, None, None, false, multiset{}, {}, 0, {}, 0, {})

  predicate InMesh(phase: Phase) { phase.Active? || phase.Reconnecting? }

  // ----- the store's mutators ------------------------------------------------------

  function BeginOutgoing(st: CallState, conv: string, direct: bool, joining: bool): CallState {
    if st.phase.Idle? then IDLE_STATE.(phase := Outgoing, conv := Some(conv), direct := direct, joining := joining) else st
  }

  function SetIncoming(st: CallState, callId: CallId, conv: string, direct: bool): CallState {
    if st.phase.Idle? then IDLE_STATE.(phase := Incoming, callId := Some(callId), conv := Some(conv), direct := direct) else st
  }

  function SetCallId(st: CallState, callId: CallId): CallState {
    if st.phase.Idle? then st else st.(callId := Some(callId))
  }

  function SetActive(st: CallState, callId: Option<CallId>, conv: Option<string>): CallState {
    if st.phase.Idle? then st
    else st.(phase := Active, callId := if callId.Some? then callId else st.callId,
             conv := if conv.Some? then conv else st.conv, joining := false)
  }

  function SetPhase(st: CallState, phase: Phase): CallState {
    if InMesh(st.phase) then st.(phase := phase) else st
  }

  function SyncParticipants(st: CallState, users: set<UserId>, prune: bool): CallState {
    if st.phase.Idle? then st
    else st.(participants := map u | u in users + (if prune then {} else st.participants.Keys) ::
               u in st.participants && st.participants[u])
  }

  function UpsertParticipant(st: CallState, u: UserId): CallState {
    if st.phase.Idle? || u in st.participants then st else st.(participants := st.participants[u := false])
  }

  function RemoveParticipant(st: CallState, u: UserId): CallState { st.(participants := st.participants - {u}) }

  function SetConnection(st: CallState, u: UserId, connected: bool): CallState {
    if u in st.participants then st.(participants := st.participants[u := connected]) else st
  }

  function ResetCall(st: CallState): CallState { if st.phase.Idle? then st else IDLE_STATE }

  // ----- peers, timers, media ------------------------------------------------------

  function PeerIds(peers: map<UserId, Peer>): set<nat> { set u | u in peers :: peers[u].id }

  function CreatePeer(s: Session, u: UserId, initiator: bool, retried: bool): Session {
    if s.state.stream.None? || s.state.callId.None? then s
    else s.(peers := s.peers[u := Peer(s.peersMade, initiator, retried)],
            openPeers := s.openPeers + {s.peersMade}, peersMade := s.peersMade + 1)
  }

  function ArmConnectTimer(s: Session, u: UserId): Session { s.(timers := s.timers + {u}) }

  function ClearConnectTimer(s: Session, u: UserId): Session { s.(timers := s.timers - {u}) }

  /** A peer's onClose: a peer deliberately replaced or removed is no longer its user's entry. */
  function HandlePeerClose(s: Session, u: UserId, id: nat): Session {
    if u !in s.peers || s.peers[u].id != id then s
    else
      var (peer, s1) := (s.peers[u], s.(peers := s.peers - {u}));
      if !InMesh(s.state.phase) then s1
      else
        var s2 := s1.(state := SetConnection(s1.state, u, false));
        if peer.initiator && !peer.retried then ArmConnectTimer(CreatePeer(s2, u, true, true), u) else s2
  }

  /** destroy() runs onClose before it returns, the first time. */
  function Destroy(s: Session, u: UserId, id: nat): Session {
    if id !in s.openPeers then s else HandlePeerClose(s.(openPeers := s.openPeers - {id}), u, id)
  }

  function DropPeer(s: Session, u: UserId): Session {
    if u in s.peers then Destroy(s.(peers := s.peers - {u}), u, s.peers[u].id) else s
  }

  function StoredStream(st: CallState): set<nat> { if st.stream.Some? then {st.stream.value} else {} }

  function Teardown(s: Session): Session {
    s.(peers := map[], openPeers := s.openPeers - PeerIds(s.peers), timers := {}, failsafe := None,
       liveStreams := s.liveStreams - StoredStream(s.state), state := ResetCall(s.state))
  }

  function Acquire(s: Session): Session {
    s.(liveStreams := s.liveStreams + {s.streamsMade}, streamsMade := s.streamsMade + 1)
  }

  function StopStream(s: Session, stream: nat): Session { s.(liveStreams := s.liveStreams - {stream}) }

  function SetLocalStream(s: Session, stream: nat): Session {
    if s.state.phase.Idle? then s
    else s.(state := s.state.(stream := Some(stream)), overwritten := s.overwritten + StoredStream(s.state))
  }

  function Await(s: Session, w: Wait): Session { s.(waits := s.waits + multiset{w}) }

  // ----- clicks --------------------------------------------------------------------

  function StartCall(s: Session, conv: string, direct: bool): Session {
    if !s.state.phase.Idle? then s
    else Await(s.(state := BeginOutgoing(s.state, conv, direct, false)), StartMedia(conv))
  }

  /** joinCall from the banner, or a click on the rejoin offer. */
  function BeginJoin(s: Session, callId: CallId, conv: string, direct: bool): Session {
    if !s.state.phase.Idle? then s
    else Await(s.(state := BeginOutgoing(s.state, conv, direct, true)), JoinMedia(callId, conv))
  }

  function AcceptCall(s: Session): Session {
    if !s.state.phase.Incoming? || s.state.callId.None? || s.accepting then s
    else Await(s.(accepting := true, failsafe := None), AcceptMedia(s.state.callId.value))
  }

  function Decline(s: Session): Session {
    if s.state.phase.Incoming? && s.state.callId.Some? then Teardown(s) else s
  }

  function HangUp(s: Session): Session { if s.state.phase.Idle? then s else Teardown(s) }

  // ----- continuations -------------------------------------------------------------

  function JoinById(s: Session, callId: CallId, accepting: bool): Session {
    Await(s.(pendingJoin := Some(callId)), JoinAck(callId, accepting))
  }

  /** The surface the media was asked for is still up. */
  predicate StillOutgoing(s: Session, conv: string) { s.state.phase.Outgoing? && s.state.conv == Some(conv) }

  /** Media arrived, or its permission was refused. */
  function OnStartMedia(s: Session, conv: string, granted: bool): Session {
    if !granted then s
    else
      var (stream, s1) := (s.streamsMade, Acquire(s));
      if StillOutgoing(s1, conv) then Await(SetLocalStream(s1, stream), InviteAck(conv)) else StopStream(s1, stream)
  }

  datatype InviteAnswer = Invited(callId: CallId) | AlreadyActive(callId: CallId) | Refused

  function OnInviteAck(s: Session, conv: string, answer: InviteAnswer): Session {
    if !StillOutgoing(s, conv) then s
    else match answer
      case Invited(callId) => s.(state := SetCallId(s.state, callId))
      case AlreadyActive(callId) => JoinById(s.(state := SetCallId(s.state, callId)), callId, false)
      case Refused => Teardown(s)
  }

  function OnAcceptMedia(s: Session, callId: CallId, granted: bool): Session {
    if !granted then Teardown(s).(accepting := false)
    else
      var (stream, s1) := (s.streamsMade, Acquire(s));
      if !s.state.phase.Incoming? || s.state.callId != Some(callId) then StopStream(s1, stream).(accepting := false)
      else JoinById(SetLocalStream(s1, stream), callId, true)
  }

  function OnJoinMedia(s: Session, callId: CallId, conv: string, granted: bool): Session {
    if !granted then s
    else
      var (stream, s1) := (s.streamsMade, Acquire(s));
      if !StillOutgoing(s1, conv) then StopStream(s1, stream)
      else
        var s2 := SetLocalStream(s1, stream);
        JoinById(s2.(state := SetCallId(s2.state, callId)), callId, false)
  }

  datatype JoinAnswer = Joined(callId: CallId, conv: string, participants: set<UserId>) | NotJoined

  function OnJoinAck(s: Session, me: UserId, callId: CallId, accepting: bool, answer: JoinAnswer): Session {
    var s1 := s.(pendingJoin := None, accepting := s.accepting && !accepting);
    if s.state.callId != Some(callId) || s.state.phase.Idle? then s1
    else match answer
      case NotJoined => Teardown(s1)
      case Joined(id, conv, participants) =>
        s1.(state := SetActive(SyncParticipants(s1.state, participants - {me}, false), Some(id), Some(conv)),
            timers := s1.timers + participants)
  }

  datatype StateAnswer = NoAnswer | NoCall | InCall(callId: CallId, participants: set<UserId>)

  /** resync's answer; following another call only offers the user a click. */
  function OnStateAck(s: Session, me: UserId, answer: StateAnswer): Session {
    var inCall := s.state.callId.Some? && (s.state.phase.Outgoing? || InMesh(s.state.phase));
    match answer
    case NoAnswer => s
    case NoCall => if inCall then Teardown(s) else s
    case InCall(callId, participants) =>
      if inCall && s.state.callId == Some(callId) then
        var s1 := s.(state := SetPhaseIfReconnecting(SyncParticipants(s.state, participants - {me}, true)));
        if s.state.phase.Outgoing? then s1 else JoinById(s1, callId, false)
      else if inCall then Teardown(s) else s
  }

  function SetPhaseIfReconnecting(st: CallState): CallState {
    if st.phase.Reconnecting? then SetPhase(st, Active) else st
  }

  // ----- socket events and timers --------------------------------------------------

  function OnRing(s: Session, callId: CallId, conv: string, direct: bool): Session {
    if !s.state.phase.Idle? then s
    else s.(state := SetIncoming(s.state, callId, conv, direct), failsafe := Some(callId))
  }

  function OnRingFailsafe(s: Session, callId: CallId): Session {
    var s1 := s.(failsafe := None);
    if s.state.phase.Incoming? && s.state.callId == Some(callId) then Teardown(s1) else s1
  }

  function OnParticipantJoined(s: Session, me: UserId, callId: CallId, user: UserId, joined: set<UserId>): Session {
    if user == me then
      if s.state.phase.Incoming? && s.state.callId == Some(callId) && s.pendingJoin != Some(callId) then Teardown(s) else s
    else if s.state.callId != Some(callId) || me !in joined || !(s.state.phase.Outgoing? || InMesh(s.state.phase)) then s
    else
      var st := if s.state.phase.Outgoing? then SetActive(s.state, None, None) else s.state;
      var s1 := ClearConnectTimer(DropPeer(s.(state := UpsertParticipant(st, user)), user), user);
      ArmConnectTimer(CreatePeer(s1, user, true, false), user)
  }

  function OnParticipantLeft(s: Session, me: UserId, callId: CallId, user: UserId): Session {
    if s.state.callId != Some(callId) then s
    else if user == me then Teardown(s)
    else
      var s1 := ClearConnectTimer(DropPeer(s, user), user);
      s1.(state := RemoveParticipant(s1.state, user))
  }

  function OnCallEnded(s: Session, callId: CallId): Session {
    if s.state.callId == Some(callId) then Teardown(s) else s
  }

  /** call:ring-cancelled and call:ring-handled. */
  function DismissRing(s: Session, callId: CallId): Session {
    if s.state.phase.Incoming? && s.state.callId == Some(callId) then Teardown(s) else s
  }

  function OnRtcSignal(s: Session, callId: CallId, from: UserId, isOffer: bool): Session {
    if s.state.callId != Some(callId) || !InMesh(s.state.phase) || !isOffer then s
    else if from in s.peers then
      var s1 := ClearConnectTimer(DropPeer(s, from), from);
      var s2 := s1.(state := SetConnection(s1.state, from, false));
      ArmConnectTimer(CreatePeer(s2, from, false, false), from)
    else if from in s.state.participants then ArmConnectTimer(CreatePeer(s, from, false, false), from)
    else s
  }

  function OnPeerConnect(s: Session, u: UserId): Session
    requires u in s.peers
  {
    var s1 := ClearConnectTimer(s.(peers := s.peers[u := s.peers[u].(retried := false)]), u);
    s1.(state := SetConnection(s1.state, u, true))
  }

  function OnConnectWindowExpired(s: Session, u: UserId): Session {
    var s1 := s.(timers := s.timers - {u});
    if !InMesh(s.state.phase) || u !in s.state.participants || s.state.participants[u] then s1
    else if s.state.direct then HangUp(s1)
    else
      var s2 := DropPeer(s1, u);
      s2.(state := RemoveParticipant(s2.state, u))
  }

  function OnDisconnect(s: Session, byClient: bool): Session {
    if byClient then Teardown(s)
    else if s.state.phase.Active? then s.(state := SetPhase(s.state, Reconnecting)) else s
  }

  function Resync(s: Session): Session { Await(s, StateAck) }

  // ----- runs ----------------------------------------------------------------------

  datatype Step =
    | ClickCall(conv: string, direct: bool)
    | ClickJoin(callId: CallId, conv: string, direct: bool)
    | ClickAccept
    | ClickDecline
    | ClickHangUp
    | StartMediaComes(conv: string, granted: bool)
    | InviteAckComes(conv: string, invited: InviteAnswer)
    | AcceptMediaComes(callId: CallId, granted: bool)
    | JoinMediaComes(callId: CallId, conv: string, granted: bool)
    | JoinAckComes(callId: CallId, accepting: bool, joinAnswer: JoinAnswer)
    | StateAckComes(stateAnswer: StateAnswer)
    | Rings(callId: CallId, conv: string, direct: bool)
    | FailsafeFires
    | Joins(callId: CallId, user: UserId, joined: set<UserId>)
    | Leaves(callId: CallId, user: UserId)
    | Ends(callId: CallId)
    | RingDismissed(callId: CallId)
    | Signal(callId: CallId, from: UserId, isOffer: bool)
    | PeerConnects(u: UserId)
    | PeerCloses(u: UserId)
    | WindowExpires(u: UserId)
    | Connects
    | Disconnects(byClient: bool)

  predicate Enabled(s: Session, step: Step) {
    match step
    case StartMediaComes(conv, _) => StartMedia(conv) in s.waits
    case InviteAckComes(conv, _) => InviteAck(conv) in s.waits
    case AcceptMediaComes(callId, _) => AcceptMedia(callId) in s.waits
    case JoinMediaComes(callId, conv, _) => JoinMedia(callId, conv) in s.waits
    case JoinAckComes(callId, accepting, _) => JoinAck(callId, accepting) in s.waits
    case StateAckComes(_) => StateAck in s.waits
    case FailsafeFires => s.failsafe.Some?
    case PeerConnects(u) => u in s.peers
    case PeerCloses(u) => u in s.peers
    case WindowExpires(u) => u in s.timers
    case _ => true
  }

  function Came(s: Session, w: Wait): Session { s.(waits := s.waits - multiset{w}) }

  function Next(s: Session, me: UserId, step: Step): Session
    requires Enabled(s, step)
  {
    match step
    case ClickCall(conv, direct) => StartCall(s, conv, direct)
    case ClickJoin(callId, conv, direct) => BeginJoin(s, callId, conv, direct)
    case ClickAccept => AcceptCall(s)
    case ClickDecline => Decline(s)
    case ClickHangUp => HangUp(s)
    case StartMediaComes(conv, granted) => OnStartMedia(Came(s, StartMedia(conv)), conv, granted)
    case InviteAckComes(conv, answer) => OnInviteAck(Came(s, InviteAck(conv)), conv, answer)
    case AcceptMediaComes(callId, granted) => OnAcceptMedia(Came(s, AcceptMedia(callId)), callId, granted)
    case JoinMediaComes(callId, conv, granted) => OnJoinMedia(Came(s, JoinMedia(callId, conv)), callId, conv, granted)
    case JoinAckComes(callId, accepting, answer) => OnJoinAck(Came(s, JoinAck(callId, accepting)), me, callId, accepting, answer)
    case StateAckComes(answer) => OnStateAck(Came(s, StateAck), me, answer)
    case Rings(callId, conv, direct) => OnRing(s, callId, conv, direct)
    case FailsafeFires => OnRingFailsafe(s, s.failsafe.value)
    case Joins(callId, user, joined) => OnParticipantJoined(s, me, callId, user, joined)
    case Leaves(callId, user) => OnParticipantLeft(s, me, callId, user)
    case Ends(callId) => OnCallEnded(s, callId)
    case RingDismissed(callId) => DismissRing(s, callId)
    case Signal(callId, from, isOffer) => OnRtcSignal(s, callId, from, isOffer)
    case PeerConnects(u) => OnPeerConnect(s, u)
    case PeerCloses(u) => Destroy(s, u, s.peers[u].id)
    case WindowExpires(u) => OnConnectWindowExpired(s, u)
    case Connects => Resync(s)
    case Disconnects(byClient) => OnDisconnect(s, byClient)
  }

  function Run(me: UserId, steps: seq<Step>): Option<Session> {
    if steps == [] then Some(START)
    else
      var before := Run(me, steps[..|steps|-1]);
      if before.Some? && Enabled(before.value, steps[|steps|-1]) then Some(Next(before.value, me, steps[|steps|-1])) else None
  }

  ghost predicate Reachable(me: UserId, s: Session) { exists steps :: Run(me, steps) == Some(s) }
}
