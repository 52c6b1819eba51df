/**
 The synchronous segments of the call handlers. Every handler is cut by its
 awaits; what runs between two awaits is one function from the state of the
 socket process (memory, presence, batches sent to the database) to the next.
 */
module CallSegments {
  import opened Common
  import opened CallModel

  /**
   One transaction a handler sent to the database, together with the locals its
   continuation reads. `ringing` on a finalizer records the status the call had
   when the verdict was chosen.
   */
  datatype Op =
    | InsertCall(call: CallId, conv: Conversation, kind: Kind, starter: UserId, rung: set<UserId>)
    | StampOrphan(call: CallId)
    | UpsertJoin(call: CallId, user: UserId, alreadyJoined: bool, becameOngoing: bool)
    | Restamp(call: CallId, user: UserId)
    | StampLeft(call: CallId, users: set<UserId>)
    | Finalize(call: CallId, conv: Conversation, kind: Kind, verdict: Verdict, durationSec: Option<int>, ringing: bool)
    | StampSwept(call: CallId)

  /** A batch is in flight, then answered; it is closed once its handler has gone on. */
  datatype Phase = InFlight | Committed | Failed | Closed

  datatype Batch = Batch(op: Op, phase: Phase)

  datatype Node = Node(mem: Mem, online: map<UserId, set<SocketId>>, batches: seq<Batch>)

  // ----- presence -----------------------------------------------------------

  function SocketsOf(online: map<UserId, set<SocketId>>, u: UserId): set<SocketId> {
    if u in online then online[u] else {}
  }

  function Count(online: map<UserId, set<SocketId>>, u: UserId): nat { |SocketsOf(online, u)| }

  function AddSocket(online: map<UserId, set<SocketId>>, u: UserId, s: SocketId): map<UserId, set<SocketId>> {
    online[u := SocketsOf(online, u) + {s}]
  }

  function RemoveSocket(online: map<UserId, set<SocketId>>, u: UserId, s: SocketId): map<UserId, set<SocketId>> {
    if u !in online then online
    else if online[u] - {s} == {} then online - {u}
    else online[u := online[u] - {s}]
  }

  // ----- the finalizer ------------------------------------------------------

  function Send(n: Node, op: Op): Node { n.(batches := n.batches + [Batch(op, InFlight)]) }

  /** Talk time on the app clock, rounded half up as Math.round does. */
  function TalkSeconds(call: Call, verdict: Verdict, now: int): Option<int> {
    if verdict.Ended? && call.answeredAt.Some? then Some((now - call.answeredAt.value + 500) / 1000) else None
  }

  function FinalOp(c: CallId, call: Call, verdict: Verdict, now: int): Op {
    Finalize(c, call.conv, call.kind, verdict, TalkSeconds(call, verdict, now), call.status.Ringing?)
  }

  function EndCall(n: Node, c: CallId, verdict: Verdict, now: int): Node {
    if !n.mem.Live(c) then n
    else Send(n.(mem := BeginTerminal(n.mem, c)), FinalOp(c, n.mem.calls[c], verdict, now))
  }

  function EndsWithoutUser(call: Call, joinedRemaining: nat): bool {
    if call.conv.Direct? then joinedRemaining < 2 else joinedRemaining == 0
  }

  function Closing(call: Call): Verdict { if call.status.Ringing? then Missed else Ended }

  // ----- invite -------------------------------------------------------------

  datatype InviteAnswer =
    | ConversationNotFound | SelfBusy | CallActive(call: CallId) | Offline | PeerBusy | Reserved

  function OnlineOthers(n: Node, u: UserId, members: set<UserId>): set<UserId> {
    set m | m in members && m != u && Count(n.online, m) > 0
  }

  function InviteAnswerOf(n: Node, u: UserId, conv: Conversation, member: bool, members: Option<set<UserId>>, blocked: bool)
    : InviteAnswer
  {
    if !member || members.None? then ConversationNotFound
    else if blocked then ConversationNotFound
    else if u in n.mem.byUser then SelfBusy
    else if conv in n.mem.byConversation && n.mem.byConversation[conv] in n.mem.calls then
      CallActive(n.mem.byConversation[conv])
    else
      var rung := OnlineOthers(n, u, members.value);
      if rung == {} then Offline
      else if conv.Direct? && exists m | m in rung :: m in n.mem.byUser then PeerBusy
      else Reserved
  }

  function Invite(n: Node, c: CallId, u: UserId, conv: Conversation, kind: Kind, member: bool,
                  members: Option<set<UserId>>, blocked: bool, now: int): Node
  {
    if InviteAnswerOf(n, u, conv, member, members, blocked).Reserved? then
      var rung := OnlineOthers(n, u, members.value);
      Send(n.(mem := Create(n.mem, c, conv, kind, u, rung, now)), InsertCall(c, conv, kind, u, rung))
    else n
  }

  // ----- join ---------------------------------------------------------------

  datatype JoinAnswer = JoinNotFound | JoinSelfBusy | CallFull | Joined(alreadyJoined: bool, becameOngoing: bool)

  function JoinAnswerOf(n: Node, c: CallId, u: UserId, member: bool): JoinAnswer {
    if !member || !n.mem.Live(c) then JoinNotFound
    else if u in n.mem.byUser && n.mem.byUser[u] != c then JoinSelfBusy
    else if !n.mem.IsJoined(c, u) && |n.mem.calls[c].JoinedSet()| >= MAX_JOINED then CallFull
    else Joined(n.mem.IsJoined(c, u), !n.mem.IsJoined(c, u) && n.mem.calls[c].status.Ringing?)
  }

  function Join(n: Node, c: CallId, u: UserId, member: bool, now: int): Node {
    match JoinAnswerOf(n, c, u, member)
    case Joined(already, became) =>
      Send(n.(mem := MarkJoined(n.mem, c, u, now)), UpsertJoin(c, u, already, became))
    case _ => n
  }

  // ----- cancel, reject, leave ----------------------------------------------

  function Cancel(n: Node, c: CallId, u: UserId, now: int): Node {
    if n.mem.Live(c) && n.mem.calls[c].startedBy == u && n.mem.calls[c].status.Ringing? then
      EndCall(n, c, Missed, now)
    else n
  }

  function Reject(n: Node, c: CallId, u: UserId, now: int): Node {
    if n.mem.Live(c) && n.mem.IsPending(c, u) then
      var n1 := n.(mem := MarkRejected(n.mem, c, u));
      var call := n1.mem.calls[c];
      if call.conv.Direct? then EndCall(n1, c, Rejected, now)
      else if call.status.Ringing? && call.PendingSet() == {} then EndCall(n1, c, Missed, now)
      else n1
    else n
  }

  /** The tail shared by an explicit leave and an expired disconnect grace. */
  function Depart(n: Node, c: CallId, u: UserId, now: int): Node
    requires c in n.mem.calls
  {
    var n1 := n.(mem := MarkLeft(n.mem, c, u));
    var call := n1.mem.calls[c];
    if EndsWithoutUser(call, |call.JoinedSet()|) then EndCall(n1, c, Closing(call), now)
    else Send(n1, StampLeft(c, {u}))
  }

  function Leave(n: Node, c: CallId, u: UserId, now: int): Node {
    if n.mem.Live(c) && n.mem.IsJoined(c, u) then Depart(n, c, u, now) else n
  }

  // ----- timers -------------------------------------------------------------

  function Fire(n: Node, t: Timer): Node { n.(mem := n.mem.(armed := n.mem.armed - {t})) }

  function RingExpires(n: Node, t: Timer, now: int): Node
    requires t.RingTimer?
  {
    var fired := Fire(n, t);
    var n1 := fired.(mem := ClearRingTimer(fired.mem, t.call));
    if n1.mem.Live(t.call) && n1.mem.calls[t.call].status.Ringing? then EndCall(n1, t.call, Missed, now) else n1
  }

  function GraceExpires(n: Node, t: Timer, now: int): Node
    requires t.GraceTimer?
  {
    var fired := Fire(n, t);
    var n1 := fired.(mem := ClearGraceTimer(fired.mem, t.call, t.user));
    if n1.mem.Live(t.call) && n1.mem.IsJoined(t.call, t.user) && Count(n1.online, t.user) == 0 then
      Depart(n1, t.call, t.user, now)
    else n1
  }

  function StartGrace(n: Node, c: CallId, u: UserId): Node {
    var t := GraceTimer(n.mem.issued, c, u);
    n.(mem := SetGraceTimer(n.mem.(armed := n.mem.armed + {t}, issued := n.mem.issued + 1), c, u, t))
  }

  // ----- connect and disconnect ---------------------------------------------

  function Connect(n: Node, u: UserId, s: SocketId): Node {
    n.(mem := ClearUserGraceTimers(n.mem, u), online := AddSocket(n.online, u, s))
  }

  /** The call the disconnecting user is joined in: a ringing caller ends it, anyone else gets grace. */
  function LoseOwnCall(n: Node, u: UserId, now: int): Node {
    if u in n.mem.byUser && n.mem.Live(n.mem.byUser[u]) then
      var c := n.mem.byUser[u];
      if n.mem.calls[c].status.Ringing? && n.mem.calls[c].startedBy == u then EndCall(n, c, Missed, now)
      else StartGrace(n, c, u)
    else n
  }

  /** One ring the disconnecting user had pending. */
  function LoseRing(n: Node, c: CallId, u: UserId, now: int): Node {
    if c !in n.mem.calls then n
    else if n.mem.calls[c].conv.Direct? then EndCall(n, c, Missed, now)
    else
      var n1 := n.(mem := MarkRungGone(n.mem, c, u));
      if n1.mem.calls[c].status.Ringing? && n1.mem.calls[c].PendingSet() == {} then EndCall(n1, c, Missed, now) else n1
  }

  function LoseRings(n: Node, rings: seq<CallId>, u: UserId, now: int): Node {
    if rings == [] then n
    else LoseRing(LoseRings(n, rings[..|rings|-1], u, now), rings[|rings|-1], u, now)
  }

  /** What the call controller's own disconnecting listener does; `rings` is the order ringsFor lists. */
  function CallListener(n: Node, u: UserId, rings: seq<CallId>, now: int): Node {
    if Count(n.online, u) > 1 then n else LoseRings(LoseOwnCall(n, u, now), rings, u, now)
  }

  /** Both disconnecting listeners, in registration order: calls first, then presence. */
  function Disconnect(n: Node, u: UserId, s: SocketId, rings: seq<CallId>, now: int): Node {
    var n1 := CallListener(n, u, rings, now);
    n1.(online := RemoveSocket(n1.online, u, s))
  }

  // ----- kick ---------------------------------------------------------------

  datatype KickState = KickState(mem: Mem, left: set<UserId>, ends: bool)

  function KickOne(k: KickState, c: CallId, u: UserId): KickState {
    if c !in k.mem.calls then k
    else if k.mem.IsJoined(c, u) then
      var m := MarkLeft(k.mem, c, u);
      KickState(m, k.left + {u}, k.ends || EndsWithoutUser(m.calls[c], |m.calls[c].JoinedSet()|))
    else if k.mem.IsPending(c, u) then
      var m := MarkRungGone(k.mem, c, u);
      KickState(m, k.left, k.ends || (m.calls[c].status.Ringing? && m.calls[c].PendingSet() == {}))
    else k
  }

  function KickAll(k: KickState, c: CallId, users: seq<UserId>): KickState {
    if users == [] then k else KickOne(KickAll(k, c, users[..|users|-1]), c, users[|users|-1])
  }

  function Kick(n: Node, conv: Conversation, users: seq<UserId>, now: int): Node {
    if conv in n.mem.byConversation && n.mem.Live(n.mem.byConversation[conv]) then
      var c := n.mem.byConversation[conv];
      var k := KickAll(KickState(n.mem, {}, false), c, users);
      var n1 := n.(mem := k.mem);
      if k.ends && c in k.mem.calls then EndCall(n1, c, Closing(k.mem.calls[c]), now)
      else if k.left == {} then n1
      else Send(n1, StampLeft(c, k.left))
    else n
  }

  // ----- continuations ------------------------------------------------------

  function Close(n: Node, i: nat): Node
    requires i < |n.batches|
  {
    n.(batches := n.batches[i := n.batches[i].(phase := Closed)])
  }

  function InviteGoesOn(n: Node, op: Op, ok: bool): Node
    requires op.InsertCall?
  {
    if !ok then n.(mem := Remove(n.mem, op.call))
    else if !n.mem.Live(op.call) then Send(n, StampOrphan(op.call))
    else
      var t := RingTimer(n.mem.issued, op.call);
      n.(mem := SetRingTimer(n.mem.(armed := n.mem.armed + {t}, issued := n.mem.issued + 1), op.call, t))
  }

  function JoinGoesOn(n: Node, op: Op, ok: bool): Node
    requires op.UpsertJoin?
  {
    if !ok then
      var n1 := if op.alreadyJoined then n else n.(mem := MarkLeft(n.mem, op.call, op.user));
      if op.becameOngoing then n1.(mem := RevertOngoing(n1.mem, op.call)) else n1
    else if !n.mem.Live(op.call) then Send(n, Restamp(op.call, op.user))
    else n
  }

  /** The handler that awaited batch `i` goes on after the database answered. */
  function GoOn(n: Node, i: nat): Node
    requires i < |n.batches|
  {
    var b := n.batches[i];
    var ok := b.phase.Committed?;
    var n1 := Close(n, i);
    match b.op
    case InsertCall(_, _, _, _, _) => InviteGoesOn(n1, b.op, ok)
    case UpsertJoin(_, _, _, _) => JoinGoesOn(n1, b.op, ok)
    case Finalize(c, _, _, _, _, _) => n1.(mem := Remove(n1.mem, c))
    case _ => n1
  }

  // ----- what a rollback may leave behind ------------------------------------------------

  predicate IsRollback(n: Node, i: nat) {
    i < |n.batches| && n.batches[i].op.UpsertJoin? && n.batches[i].phase.Failed?
  }

  /**
   After the rollback of a failed join a GROUP call that rings has its starter alone
   joined and somebody else still rung, and one that is ongoing has somebody else joined.
   */
  predicate OthersRemain(call: Call, op: Op)
    requires op.UpsertJoin?
  {
    || op.alreadyJoined
    || (if op.becameOngoing || call.status.Ringing?
        then call.JoinedSet() - {op.user} == {call.startedBy} && call.PendingSet() - {op.user} != {}
        else call.JoinedSet() - {op.user} != {})
  }

  predicate RollbackStrands(n: Node, i: nat) {
    && IsRollback(n, i)
    && n.mem.Live(n.batches[i].op.call)
    && n.mem.calls[n.batches[i].op.call].conv.Group?
    && !OthersRemain(n.mem.calls[n.batches[i].op.call], n.batches[i].op)
  }

  /** The invite that made the call has not gone on, so it has yet to arm the ring timer. */
  predicate OpenInsert(n: Node, c: CallId) {
    exists i | 0 <= i < |n.batches| :: n.batches[i].op.InsertCall? && n.batches[i].op.call == c && !n.batches[i].phase.Closed?
  }

  /** A ring timer is armed for the call, or will be. */
  predicate Timed(n: Node, c: CallId) {
    (c in n.mem.calls && n.mem.calls[c].ringTimer.Some?) || OpenInsert(n, c)
  }

  /** The rollback puts a call back to ringing whose ring timer has come and gone. */
  predicate RollbackUntimes(n: Node, i: nat) {
    && IsRollback(n, i)
    && n.batches[i].op.becameOngoing
    && n.mem.Live(n.batches[i].op.call)
    && !Timed(n, n.batches[i].op.call)
  }

  // ----- the stuck-ring sweeper ----------------------------------------------

  const STUCK_RINGING_MS := 120000

  predicate Stuck(m: Mem, c: CallId, now: int) {
    m.Live(c) && m.calls[c].status.Ringing? && m.calls[c].startedAt < now - STUCK_RINGING_MS
  }

  function SweepOne(n: Node, c: CallId, now: int): Node {
    if Stuck(n.mem, c, now) then Send(n.(mem := Remove(n.mem, c)), StampSwept(c)) else n
  }
}
