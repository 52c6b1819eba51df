/**
 The in-memory half of the live-call protocol as values: call records, the three
 lookup maps, the armed timers, and one function for every exported mutator of
 the state machine. The class in ActiveCalls.dfy is proved against these.
 */
module CallModel {
  import opened Common

  type UserId = nat
  type CallId = nat
  type SocketId = nat

  /** A DIRECT conversation has two fixed members; a GROUP's membership changes. */
  datatype Conversation = Direct(id: nat, a: UserId, b: UserId) | Group(id: nat)

  datatype Kind = Audio | Video

  datatype Status = Ringing | Ongoing | Ended | Missed | Rejected {
    predicate Terminal() { Ended? || Missed? || Rejected? }
  }

  /** The two values a record in memory can hold. */
  type LiveStatus = s: Status | s.Ringing? || s.Ongoing? witness Ringing

  /** The three values a finalizer can write. */
  type Verdict = s: Status | s.Terminal() witness Missed

  datatype Timer =
    | RingTimer(id: nat, call: CallId)
    | GraceTimer(id: nat, call: CallId, user: UserId)

  datatype Entry = Entry(
    rung: bool,
    joinedAt: Option<int>,
    left: bool,
    rejected: bool,
    grace: Option<Timer>)
  {
    predicate Joined() { joinedAt.Some? && !left }

    predicate Pending() { rung && joinedAt.None? && !rejected && !left }
  }

  datatype Call = Call(
    conv: Conversation,
    kind: Kind,
    status: LiveStatus,
    startedBy: UserId,
    startedAt: int,
    answeredAt: Option<int>,
    terminal: bool,
    ringTimer: Option<Timer>,
    people: map<UserId, Entry>)
  {
    function JoinedSet(): set<UserId> {
      set u | u in people && people[u].Joined()
    }

    function PendingSet(): set<UserId> {
      set u | u in people && people[u].Pending()
    }
  }

  /** The state machine's module variables, with the timers the event loop holds for it. */
  datatype Mem = Mem(
    calls: map<CallId, Call>,
    byUser: map<UserId, CallId>,
    byConversation: map<Conversation, CallId>,
    armed: set<Timer>,
    issued: nat)
  {
    predicate Live(c: CallId) { c in calls && !calls[c].terminal }

    predicate IsJoined(c: CallId, u: UserId) {
      c in calls && u in calls[c].people && calls[c].people[u].Joined()
    }

    predicate IsPending(c: CallId, u: UserId) {
      c in calls && u in calls[c].people && calls[c].people[u].Pending()
    }

    function RingsFor(u: UserId): set<CallId> {
      set c | c in calls && Live(c) && IsPending(c, u)
    }
  }

  const EMPTY := Mem(map[], map[], map[], {}, 0)

  const MAX_JOINED: nat := 4

  function Disarm(armed: set<Timer>, handle: Option<Timer>): set<Timer> {
    if handle.Some? then armed - {handle.value} else armed
  }

  function WithEntry(m: Mem, c: CallId, u: UserId, e: Entry): Mem
    requires c in m.calls
  {
    m.(calls := m.calls[c := m.calls[c].(people := m.calls[c].people[u := e])])
  }

  function RungEntry(): Entry { Entry(true, None, false, false, None) }

  function StarterEntry(now: int): Entry { Entry(false, Some(now), false, false, None) }

  function LateEntry(): Entry { Entry(false, None, false, false, None) }

  function NewCall(conv: Conversation, kind: Kind, starter: UserId, rung: set<UserId>, now: int): Call {
    Call(conv, kind, Ringing, starter, now, None, false, None,
         map u | u in {starter} + rung :: if u in rung then RungEntry() else StarterEntry(now))
  }

  function Create(m: Mem, c: CallId, conv: Conversation, kind: Kind, starter: UserId, rung: set<UserId>, now: int): Mem
  {
    m.(calls := m.calls[c := NewCall(conv, kind, starter, rung, now)],
       byConversation := m.byConversation[conv := c],
       byUser := m.byUser[starter := c])
  }

  datatype JoinMark = NoCall | JoinMark(alreadyJoined: bool, becameOngoing: bool)

  function EntryOf(m: Mem, c: CallId, u: UserId): Entry
    requires c in m.calls
  {
    if u in m.calls[c].people then m.calls[c].people[u] else LateEntry()
  }

  function JoinMarkOf(m: Mem, c: CallId, u: UserId): JoinMark {
    if c !in m.calls then NoCall
    else if m.IsJoined(c, u) then JoinMark(true, false)
    else JoinMark(false, m.calls[c].status.Ringing?)
  }

  /** The entry of somebody taking a seat: the FIRST join time is kept, a leave or a decline undone. */
  function SeatedEntry(e: Entry, now: int): Entry {
    e.(joinedAt := if e.joinedAt.Some? then e.joinedAt else Some(now), left := false, rejected := false, grace := None)
  }

  function Seated(call: Call, u: UserId, now: int): Call {
    var e := if u in call.people then call.people[u] else LateEntry();
    call.(
      people := call.people[u := SeatedEntry(e, now)],
      status := Ongoing,
      answeredAt := if call.status.Ringing? then Some(now) else call.answeredAt)
  }

  function MarkJoined(m: Mem, c: CallId, u: UserId, now: int): Mem {
    if c !in m.calls then m
    else
      var e := EntryOf(m, c, u);
      var armed := Disarm(m.armed, e.grace);
      if m.IsJoined(c, u) then
        WithEntry(m, c, u, e.(grace := None)).(armed := armed)
      else
        m.(calls := m.calls[c := Seated(m.calls[c], u, now)], byUser := m.byUser[u := c], armed := armed)
  }

  function RevertOngoing(m: Mem, c: CallId): Mem {
    if m.Live(c) && m.calls[c].status.Ongoing? then
      m.(calls := m.calls[c := m.calls[c].(status := Ringing, answeredAt := None)])
    else m
  }

  function MarkRejected(m: Mem, c: CallId, u: UserId): Mem {
    if c in m.calls && u in m.calls[c].people then
      WithEntry(m, c, u, m.calls[c].people[u].(rejected := true))
    else m
  }

  function MarkRungGone(m: Mem, c: CallId, u: UserId): Mem {
    if c in m.calls && u in m.calls[c].people then
      WithEntry(m, c, u, m.calls[c].people[u].(rung := false))
    else m
  }

  function MarkLeft(m: Mem, c: CallId, u: UserId): Mem {
    if c !in m.calls then m
    else
      var m1 :=
        if u in m.calls[c].people then
          var e := m.calls[c].people[u];
          WithEntry(m, c, u, e.(left := true, grace := None)).(armed := Disarm(m.armed, e.grace))
        else m;
      if u in m.byUser && m.byUser[u] == c then m1.(byUser := m.byUser - {u}) else m1
  }

  function SetRingTimer(m: Mem, c: CallId, t: Timer): Mem {
    if c in m.calls then m.(calls := m.calls[c := m.calls[c].(ringTimer := Some(t))]) else m
  }

  function ClearRingTimer(m: Mem, c: CallId): Mem {
    if c in m.calls && m.calls[c].ringTimer.Some? then
      m.(calls := m.calls[c := m.calls[c].(ringTimer := None)], armed := Disarm(m.armed, m.calls[c].ringTimer))
    else m
  }

  function SetGraceTimer(m: Mem, c: CallId, u: UserId, t: Timer): Mem {
    if c in m.calls && u in m.calls[c].people then
      var e := m.calls[c].people[u];
      WithEntry(m, c, u, e.(grace := Some(t))).(armed := Disarm(m.armed, e.grace))
    else m
  }

  function ClearGraceTimer(m: Mem, c: CallId, u: UserId): Mem {
    if c in m.calls && u in m.calls[c].people && m.calls[c].people[u].grace.Some? then
      var e := m.calls[c].people[u];
      WithEntry(m, c, u, e.(grace := None)).(armed := Disarm(m.armed, e.grace))
    else m
  }

  function WithoutGrace(call: Call, u: UserId): Call {
    if u in call.people then call.(people := call.people[u := call.people[u].(grace := None)]) else call
  }

  /** The grace handles the records hold for one user. */
  function GracesOf(m: Mem, u: UserId): set<Timer> {
    set c | c in m.calls && u in m.calls[c].people && m.calls[c].people[u].grace.Some?
      :: m.calls[c].people[u].grace.value
  }

  function ClearUserGraceTimers(m: Mem, u: UserId): Mem {
    m.(calls := map c | c in m.calls :: WithoutGrace(m.calls[c], u), armed := m.armed - GracesOf(m, u))
  }

  function BeginTerminal(m: Mem, c: CallId): Mem {
    if m.Live(c) then m.(calls := m.calls[c := m.calls[c].(terminal := true)]) else m
  }

  /** Every handle one record holds. */
  function HandlesOf(call: Call): set<Timer> {
    (if call.ringTimer.Some? then {call.ringTimer.value} else {}) +
    (set u | u in call.people && call.people[u].grace.Some? :: call.people[u].grace.value)
  }

  function Remove(m: Mem, c: CallId): Mem {
    if c !in m.calls then m
    else
      var call := m.calls[c];
      m.(calls := m.calls - {c},
         armed := m.armed - HandlesOf(call),
         byUser := map u | u in m.byUser && !(u in call.people && m.byUser[u] == c) :: m.byUser[u],
         byConversation := if call.conv in m.byConversation && m.byConversation[call.conv] == c
                           then m.byConversation - {call.conv} else m.byConversation)
  }
}
