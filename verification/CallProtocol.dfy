/**
 The whole system as a state machine: the socket process, the database tables it
 writes, and one step for every segment, every answered batch and every
 continuation. Any step may follow any other, so runs cover every interleaving.
 */
module CallProtocol {
  import opened Common
  import opened CallModel
  import opened CallSegments

  datatype CallRow = CallRow(status: Status, endedAt: Option<int>)

  datatype PartRow = PartRow(joinedAt: Option<int>, leftAt: Option<int>)

  datatype Bubble = Bubble(call: CallId, verdict: Verdict, kind: Kind, durationSec: Option<int>)

  datatype Db = Db(
    rows: map<CallId, CallRow>,
    parts: map<(CallId, UserId), PartRow>,
    bubbles: seq<Bubble>)

  /** History the claims speak of: ids ever drawn, and calls hit by the named faults. */
  datatype Log = Log(
    used: set<CallId>,
    stranded: set<CallId>,
    untimed: set<CallId>,
    stampFailed: set<CallId>,
    swept: set<CallId>)

  datatype Server = Server(node: Node, db: Db, log: Log)

  const INITIAL := Server(Node(EMPTY, map[], []), Db(map[], map[], []), Log({}, {}, {}, {}, {}))

  // ----- what one transaction does -------------------------------------------

  function StampRow(db: Db, c: CallId, status: Status, now: int): map<CallId, CallRow> {
    if c in db.rows then db.rows[c := CallRow(status, Some(now))] else db.rows
  }

  /** left_at = now() where joined_at is set and left_at is not. */
  function StampAll(db: Db, c: CallId, now: int): map<(CallId, UserId), PartRow> {
    map k | k in db.parts ::
      if k.0 == c && db.parts[k].joinedAt.Some? && db.parts[k].leftAt.None?
      then db.parts[k].(leftAt := Some(now)) else db.parts[k]
  }

  function StampUsers(db: Db, c: CallId, users: set<UserId>, now: int): map<(CallId, UserId), PartRow> {
    map k | k in db.parts ::
      if k.0 == c && k.1 in users then db.parts[k].(leftAt := Some(now)) else db.parts[k]
  }

  function FirstRows(c: CallId, starter: UserId, rung: set<UserId>, now: int): map<(CallId, UserId), PartRow> {
    map u | u in {starter} + rung :: (c, u) := PartRow(if u == starter then Some(now) else None, None)
  }

  function Upserted(db: Db, c: CallId, u: UserId, now: int): PartRow {
    if (c, u) in db.parts && db.parts[(c, u)].joinedAt.Some? then PartRow(db.parts[(c, u)].joinedAt, None)
    else PartRow(Some(now), None)
  }

  /** The statements that reference the call row; the others cannot violate a foreign key. */
  predicate ForeignKeyHolds(db: Db, op: Op) {
    (op.UpsertJoin? || op.Finalize?) ==> op.call in db.rows
  }

  function Execute(db: Db, op: Op, now: int): Db {
    match op
    case InsertCall(c, _, _, starter, rung) =>
      db.(rows := db.rows[c := CallRow(Ringing, None)], parts := db.parts + FirstRows(c, starter, rung, now))
    case StampOrphan(c) =>
      db.(rows := StampRow(db, c, Missed, now), parts := StampAll(db, c, now))
    case UpsertJoin(c, u, _, became) =>
      db.(parts := db.parts[(c, u) := Upserted(db, c, u, now)],
          rows := if became && c in db.rows && db.rows[c].status.Ringing?
                  then db.rows[c := db.rows[c].(status := Ongoing)] else db.rows)
    case Restamp(c, u) =>
      if (c, u) in db.parts && db.parts[(c, u)].leftAt.None? then
        db.(parts := db.parts[(c, u) := db.parts[(c, u)].(leftAt := Some(now))])
      else db
    case StampLeft(c, users) =>
      db.(parts := StampUsers(db, c, users, now))
    case Finalize(c, _, kind, verdict, duration, _) =>
      Db(StampRow(db, c, verdict, now), StampAll(db, c, now), db.bubbles + [Bubble(c, verdict, kind, duration)])
    case StampSwept(c) =>
      db.(rows := StampRow(db, c, Missed, now))
  }

  // ----- steps -----------------------------------------------------------------

  datatype Step =
    | Connects(u: UserId, s: SocketId)
    | Disconnects(u: UserId, s: SocketId, rings: seq<CallId>, now: int)
    | Invites(c: CallId, u: UserId, conv: Conversation, kind: Kind, member: bool,
              members: Option<set<UserId>>, blocked: bool, now: int)
    | Joins(c: CallId, u: UserId, conv: Conversation, member: bool, now: int)
    | Cancels(c: CallId, u: UserId, now: int)
    | Rejects(c: CallId, u: UserId, now: int)
    | Leaves(c: CallId, u: UserId, now: int)
    | Kicks(conv: Conversation, users: seq<UserId>, now: int)
    | RingTimesOut(t: Timer, now: int)
    | GraceTimesOut(t: Timer, now: int)
    | BatchCommits(i: nat, now: int)
    | BatchFails(i: nat)
    | HandlerGoesOn(i: nat)
    | SweeperFires(c: CallId, now: int)

  /**
   Direct membership is fixed (only group routes change it), so the database
   answers a membership query about a DM with its two members.
   */
  predicate TruthfulMember(conv: Conversation, u: UserId, member: bool) {
    conv.Direct? && member ==> u == conv.a || u == conv.b
  }

  predicate TruthfulMembers(conv: Conversation, members: Option<set<UserId>>) {
    conv.Direct? && members.Some? ==> conv.a != conv.b && members.value == {conv.a, conv.b}
  }

  ghost predicate Enabled(s: Server, step: Step) {
    var n := s.node;
    match step
    case Connects(u, k) => k !in SocketsOf(n.online, u)
    case Disconnects(u, k, rings, _) =>
      // a fresh ringsFor listing, taken after the listener's first half ran
      && k in SocketsOf(n.online, u)
      && Lists(rings, (if Count(n.online, u) > 1 then n else LoseOwnCall(n, u, step.now)).mem.RingsFor(u))
    case Invites(c, u, conv, _, member, members, _, _) =>
      && c !in s.log.used
      && TruthfulMember(conv, u, member)
      && TruthfulMembers(conv, members)
    case Joins(c, u, conv, member, _) =>
      && (c in n.mem.calls ==> n.mem.calls[c].conv == conv)
      && TruthfulMember(conv, u, member)
    case RingTimesOut(t, _) => t in n.mem.armed && t.RingTimer?
    case GraceTimesOut(t, _) => t in n.mem.armed && t.GraceTimer?
    case BatchCommits(i, _) =>
      i < |n.batches| && n.batches[i].phase.InFlight? && ForeignKeyHolds(s.db, n.batches[i].op)
    case BatchFails(i) => i < |n.batches| && n.batches[i].phase.InFlight?
    case HandlerGoesOn(i) =>
      i < |n.batches| && (n.batches[i].phase.Committed? || n.batches[i].phase.Failed?)
    case _ => true
  }

  function Answered(n: Node, i: nat, phase: Phase): Node
    requires i < |n.batches|
  {
    n.(batches := n.batches[i := n.batches[i].(phase := phase)])
  }

  /** A stamp that fails though no foreign key stopped it is noted. */
  function Blame(s: Server, op: Op): Log {
    match op
    case Finalize(c, _, _, _, _, _) =>
      if c in s.db.rows then s.log.(stampFailed := s.log.stampFailed + {c}) else s.log
    case StampOrphan(c) => s.log.(stampFailed := s.log.stampFailed + {c})
    case Restamp(c, _) => s.log.(stampFailed := s.log.stampFailed + {c})
    case _ => s.log
  }

  /** So is a rollback that strands a GROUP call, or that leaves a call ringing without a timer. */
  function Rolled(log: Log, n: Node, i: nat): Log
    requires i < |n.batches|
  {
    var c := n.batches[i].op.call;
    log.(stranded := if RollbackStrands(n, i) then log.stranded + {c} else log.stranded,
         untimed := if RollbackUntimes(n, i) then log.untimed + {c} else log.untimed)
  }

  ghost function Next(s: Server, step: Step): Server
    requires Enabled(s, step)
  {
    var n := s.node;
    match step
    case Connects(u, k) => s.(node := Connect(n, u, k))
    case Disconnects(u, k, rings, now) => s.(node := Disconnect(n, u, k, rings, now))
    case Invites(c, u, conv, kind, member, members, blocked, now) =>
      s.(node := Invite(n, c, u, conv, kind, member, members, blocked, now),
         log := s.log.(used := s.log.used + {c}))
    case Joins(c, u, _, member, now) => s.(node := Join(n, c, u, member, now))
    case Cancels(c, u, now) => s.(node := Cancel(n, c, u, now))
    case Rejects(c, u, now) => s.(node := Reject(n, c, u, now))
    case Leaves(c, u, now) => s.(node := Leave(n, c, u, now))
    case Kicks(conv, users, now) => s.(node := Kick(n, conv, users, now))
    case RingTimesOut(t, now) => s.(node := RingExpires(n, t, now))
    case GraceTimesOut(t, now) => s.(node := GraceExpires(n, t, now))
    case BatchCommits(i, now) =>
      s.(node := Answered(n, i, Committed), db := Execute(s.db, n.batches[i].op, now))
    case BatchFails(i) =>
      s.(node := Answered(n, i, Failed), log := Blame(s, n.batches[i].op))
    case HandlerGoesOn(i) => s.(node := GoOn(n, i), log := Rolled(s.log, n, i))
    case SweeperFires(c, now) =>
      s.(node := SweepOne(n, c, now),
         log := if Stuck(n.mem, c, now) then s.log.(swept := s.log.swept + {c}) else s.log)
  }

  /** The state a sequence of steps leads to, if every one of them could be taken. */
  ghost function After(steps: seq<Step>): Option<Server> {
    if steps == [] then Some(INITIAL)
    else match After(steps[..|steps|-1])
      case None => None
      case Some(s) => if Enabled(s, steps[|steps|-1]) then Some(Next(s, steps[|steps|-1])) else None
  }

  ghost predicate Reachable(s: Server) {
    exists steps :: After(steps) == Some(s)
  }
}
