/**
 The live-call state machine and the presence counter as the objects the server
 keeps: maps updated in place by methods that never wait. Each method is proved
 against the function of the same name on values.
 */
module ActiveCallsService {
  import opened Common
  import opened CallModel
  import M = CallModel

  class ActiveCalls {
    var calls: map<CallId, Call>
    var byUser: map<UserId, CallId>
    var byConversation: map<Conversation, CallId>
    /** The event loop's side: timers set and neither fired nor cleared. */
    var armed: set<Timer>
    var issued: nat

    ghost function View(): Mem
      reads this
    {
      Mem(calls, byUser, byConversation, armed, issued)
    }

    constructor ()
      ensures View() == EMPTY
    {
      calls, byUser, byConversation, armed, issued := map[], map[], map[], {}, 0;
    }

    method ClearTimeout(handle: Option<Timer>)
      modifies this`armed
      ensures armed == Disarm(old(armed), handle)
    {
      if handle.Some? { armed := armed - {handle.value}; }
    }

    method Create(c: CallId, conv: Conversation, kind: Kind, starter: UserId, rung: set<UserId>, now: int)
      modifies this
      ensures View() == M.Create(old(View()), c, conv, kind, starter, rung, now)
    {
      var people := map[starter := StarterEntry(now)];
      var rest := rung;
      while rest != {}
        invariant rest <= rung
        invariant people == map u | u in {starter} + (rung - rest) :: if u in rung - rest then RungEntry() else StarterEntry(now)
        decreases rest
      {
        var u :| u in rest;
        people := people[u := RungEntry()];
        rest := rest - {u};
      }
      assert rung - rest == rung;
      assert people == NewCall(conv, kind, starter, rung, now).people;
      calls := calls[c := Call(conv, kind, Ringing, starter, now, None, false, None, people)];
      byConversation := byConversation[conv := c];
      byUser := byUser[starter := c];
    }

    method JoinedUserIds(c: CallId) returns (ids: seq<UserId>)
      ensures c in calls ==> Lists(ids, calls[c].JoinedSet()) && |ids| == |calls[c].JoinedSet()|
      ensures c !in calls ==> ids == []
    {
      ids := [];
      if c in calls {
        var people := calls[c].people;
        var rest := people.Keys;
        while rest != {}
          invariant rest <= people.Keys
          invariant Lists(ids, set u | u in people && u !in rest && people[u].Joined())
          decreases rest
        {
          var u :| u in rest;
          ghost var seen := set w | w in people && w !in rest && people[w].Joined();
          rest := rest - {u};
          ghost var more := set w | w in people && w !in rest && people[w].Joined();
          if people[u].Joined() {
            ListGrows(ids, seen, u);
            assert more == seen + {u};
            ids := ids + [u];
          } else {
            assert more == seen;
          }
        }
        assert (set u | u in people && u !in rest && people[u].Joined()) == calls[c].JoinedSet();
        ListLength(ids, calls[c].JoinedSet());
      }
    }

    method RungPendingUserIds(c: CallId) returns (ids: seq<UserId>)
      ensures c in calls ==> Lists(ids, calls[c].PendingSet()) && |ids| == |calls[c].PendingSet()|
      ensures c !in calls ==> ids == []
    {
      ids := [];
      if c in calls {
        var people := calls[c].people;
        var rest := people.Keys;
        while rest != {}
          invariant rest <= people.Keys
          invariant Lists(ids, set u | u in people && u !in rest && people[u].Pending())
          decreases rest
        {
          var u :| u in rest;
          ghost var seen := set w | w in people && w !in rest && people[w].Pending();
          rest := rest - {u};
          ghost var more := set w | w in people && w !in rest && people[w].Pending();
          if people[u].Pending() {
            ListGrows(ids, seen, u);
            assert more == seen + {u};
            ids := ids + [u];
          } else {
            assert more == seen;
          }
        }
        assert (set u | u in people && u !in rest && people[u].Pending()) == calls[c].PendingSet();
        ListLength(ids, calls[c].PendingSet());
      }
    }

    /** Live calls in which the user is rung and pending, each once. */
    method RingsFor(u: UserId) returns (found: seq<CallId>)
      ensures Lists(found, View().RingsFor(u))
    {
      found := [];
      var rest := calls.Keys;
      while rest != {}
        invariant rest <= calls.Keys
        invariant Lists(found, set c | c in View().RingsFor(u) && c !in rest)
        decreases rest
      {
        var c :| c in rest;
        ghost var seen := set d | d in View().RingsFor(u) && d !in rest;
        rest := rest - {c};
        ghost var more := set d | d in View().RingsFor(u) && d !in rest;
        if !calls[c].terminal && u in calls[c].people && calls[c].people[u].Pending() {
          ListGrows(found, seen, c);
          assert more == seen + {c};
          found := found + [c];
        } else {
          assert more == seen;
        }
      }
      assert (set c | c in View().RingsFor(u) && c !in rest) == View().RingsFor(u);
    }

    method MarkJoined(c: CallId, u: UserId, now: int) returns (mark: JoinMark)
      modifies this
      ensures View() == M.MarkJoined(old(View()), c, u, now)
      ensures mark == JoinMarkOf(old(View()), c, u)
    {
      if c !in calls { return NoCall; }
      ClearGraceTimer(c, u);
      GraceFirst(old(View()), c, u, now);
      var record := calls[c];
      if u in record.people && record.people[u].Joined() {
        assert record.people[u := record.people[u]] == record.people;
        assert calls[c := record] == calls;
        return JoinMark(true, false);
      }
      var entry := if u in record.people then record.people[u] else LateEntry();
      if entry.joinedAt.None? { entry := entry.(joinedAt := Some(now)); }
      entry := entry.(left := false, rejected := false);
      byUser := byUser[u := c];
      var becameOngoing := record.status.Ringing?;
      if becameOngoing { record := record.(status := Ongoing, answeredAt := Some(now)); }
      calls := calls[c := record.(people := record.people[u := entry])];
      return JoinMark(false, becameOngoing);
    }

    /** Dropping the grace handle first changes nothing about the join that follows. */
    static lemma GraceFirst(m: Mem, c: CallId, u: UserId, now: int)
      requires c in m.calls
      ensures var m1 := M.ClearGraceTimer(m, c, u);
              && M.MarkJoined(m1, c, u, now) == M.MarkJoined(m, c, u, now)
              && JoinMarkOf(m1, c, u) == JoinMarkOf(m, c, u)
              && c in m1.calls && (u in m1.calls[c].people ==> m1.calls[c].people[u].grace.None?)
    {
      var m1 := M.ClearGraceTimer(m, c, u);
      if u in m.calls[c].people && m.calls[c].people[u].grace.Some? {
        SeatedAgain(m.calls[c], m1.calls[c], u, now);
        assert m1.calls[c := Seated(m1.calls[c], u, now)] == m.calls[c := Seated(m.calls[c], u, now)];
        assert WithEntry(m1, c, u, m1.calls[c].people[u]).calls == m1.calls;
      }
    }

    static lemma SeatedAgain(call: Call, call1: Call, u: UserId, now: int)
      requires u in call.people && call1 == call.(people := call.people[u := call.people[u].(grace := None)])
      ensures Seated(call1, u, now) == Seated(call, u, now)
      ensures call1.(people := call1.people[u := call1.people[u]]) == call1
    {
      assert Seated(call1, u, now).people == Seated(call, u, now).people;
    }

    method RevertOngoing(c: CallId)
      modifies this
      ensures View() == M.RevertOngoing(old(View()), c)
    {
      if c in calls && !calls[c].terminal && calls[c].status.Ongoing? {
        calls := calls[c := calls[c].(status := Ringing, answeredAt := None)];
      }
    }

    method MarkRejected(c: CallId, u: UserId) returns (rungRemaining: nat)
      modifies this
      ensures View() == M.MarkRejected(old(View()), c, u)
      ensures c in calls ==> rungRemaining == |calls[c].PendingSet()|
    {
      if c !in calls { return 0; }
      if u in calls[c].people {
        calls := calls[c := calls[c].(people := calls[c].people[u := calls[c].people[u].(rejected := true)])];
      }
      var ids := RungPendingUserIds(c);
      return |ids|;
    }

    method MarkRungGone(c: CallId, u: UserId) returns (rungRemaining: nat)
      modifies this
      ensures View() == M.MarkRungGone(old(View()), c, u)
      ensures c in calls ==> rungRemaining == |calls[c].PendingSet()|
    {
      if c !in calls { return 0; }
      if u in calls[c].people {
        calls := calls[c := calls[c].(people := calls[c].people[u := calls[c].people[u].(rung := false)])];
      }
      var ids := RungPendingUserIds(c);
      return |ids|;
    }

    method MarkLeft(c: CallId, u: UserId) returns (joinedRemaining: nat)
      modifies this
      ensures View() == M.MarkLeft(old(View()), c, u)
      ensures c in calls ==> joinedRemaining == |calls[c].JoinedSet()|
    {
      if c !in calls { return 0; }
      if u in calls[c].people {
        var entry := calls[c].people[u];
        ClearTimeout(entry.grace);
        calls := calls[c := calls[c].(people := calls[c].people[u := entry.(left := true, grace := None)])];
      }
      if u in byUser && byUser[u] == c { byUser := byUser - {u}; }
      var ids := JoinedUserIds(c);
      return |ids|;
    }

    method SetRingTimer(c: CallId, t: Timer)
      modifies this
      ensures View() == M.SetRingTimer(old(View()), c, t)
    {
      if c in calls { calls := calls[c := calls[c].(ringTimer := Some(t))]; }
    }

    method ClearRingTimer(c: CallId)
      modifies this
      ensures View() == M.ClearRingTimer(old(View()), c)
    {
      if c in calls && calls[c].ringTimer.Some? {
        ClearTimeout(calls[c].ringTimer);
        calls := calls[c := calls[c].(ringTimer := None)];
      }
    }

    method SetGraceTimer(c: CallId, u: UserId, t: Timer)
      modifies this
      ensures View() == M.SetGraceTimer(old(View()), c, u, t)
    {
      if c !in calls || u !in calls[c].people { return; }
      var entry := calls[c].people[u];
      ClearTimeout(entry.grace);
      calls := calls[c := calls[c].(people := calls[c].people[u := entry.(grace := Some(t))])];
    }

    method ClearGraceTimer(c: CallId, u: UserId)
      modifies this
      ensures View() == M.ClearGraceTimer(old(View()), c, u)
    {
      if c in calls && u in calls[c].people && calls[c].people[u].grace.Some? {
        var entry := calls[c].people[u];
        ClearTimeout(entry.grace);
        calls := calls[c := calls[c].(people := calls[c].people[u := entry.(grace := None)])];
      }
    }

    /** A user who is back holds no grace timer in any record. */
    method ClearUserGraceTimers(u: UserId)
      modifies this
      ensures View() == M.ClearUserGraceTimers(old(View()), u)
    {
      hide GracesIn, WithoutGrace;
      var rest := calls.Keys;
      GracesInAll(View(), u);
      while rest != {}
        invariant rest <= old(calls.Keys) == calls.Keys
        invariant byUser == old(byUser) && byConversation == old(byConversation) && issued == old(issued)
        invariant forall c | c in calls :: calls[c] == if c in rest then old(calls)[c] else WithoutGrace(old(calls)[c], u)
        invariant armed == old(armed) - GracesIn(old(calls), u, rest)
        decreases rest
      {
        var c :| c in rest;
        GracesInMore(old(calls), u, rest, c);
        rest := rest - {c};
        if u in calls[c].people && calls[c].people[u].grace.Some? {
          ClearTimeout(calls[c].people[u].grace);
        }
        calls := calls[c := WithoutGrace(calls[c], u)];
      }
    }

    method BeginTerminal(c: CallId) returns (won: bool)
      modifies this
      ensures View() == M.BeginTerminal(old(View()), c)
      ensures won <==> old(View()).Live(c)
    {
      if c !in calls || calls[c].terminal { return false; }
      calls := calls[c := calls[c].(terminal := true)];
      return true;
    }

    /** Clears every timer of the call and its entry in each of the three maps. */
    method Remove(c: CallId)
      modifies this
      ensures View() == M.Remove(old(View()), c)
    {
      if c !in calls { return; }
      var record := calls[c];
      ClearTimeout(record.ringTimer);
      var people := record.people;
      var rest := people.Keys;
      while rest != {}
        invariant rest <= people.Keys
        invariant calls == old(calls) && byConversation == old(byConversation) && issued == old(issued)
        invariant armed == Disarm(old(armed), record.ringTimer) - HandlesIn(people, people.Keys - rest)
        invariant byUser == Freed(old(byUser), c, people.Keys - rest)
        decreases rest
      {
        var u :| u in rest;
        var handled := people.Keys - rest;
        rest := rest - {u};
        assert people.Keys - rest == handled + {u};
        HandlesInMore(people, handled, u);
        FreedMore(old(byUser), c, handled, u);
        ClearTimeout(people[u].grace);
        if u in byUser && byUser[u] == c { byUser := byUser - {u}; }
      }
      assert people.Keys - rest == people.Keys;
      assert Freed(old(byUser), c, people.Keys) == M.Remove(old(View()), c).byUser;
      assert HandlesOf(record) == (if record.ringTimer.Some? then {record.ringTimer.value} else {}) + HandlesIn(people, people.Keys);
      if record.conv in byConversation && byConversation[record.conv] == c {
        byConversation := byConversation - {record.conv};
      }
      calls := calls - {c};
      assert armed == old(armed) - HandlesOf(record);
    }
  }

  // ----- what the loops have handled so far ------------------------------------------

  /** The grace handles of one user outside the calls still to be handled. */
  ghost function GracesIn(calls: map<CallId, Call>, u: UserId, rest: set<CallId>): set<Timer> {
    set c | c !in rest && c in calls && u in calls[c].people && calls[c].people[u].grace.Some? :: calls[c].people[u].grace.value
  }

  lemma GracesInMore(calls: map<CallId, Call>, u: UserId, rest: set<CallId>, c: CallId)
    requires c in calls && c in rest
    ensures GracesIn(calls, u, rest - {c}) == GracesIn(calls, u, rest) +
      if u in calls[c].people && calls[c].people[u].grace.Some? then {calls[c].people[u].grace.value} else {}
  {
  }

  lemma GracesInAll(m: Mem, u: UserId)
    ensures GracesIn(m.calls, u, {}) == GracesOf(m, u)
    ensures GracesIn(m.calls, u, m.calls.Keys) == {}
  {
  }

  ghost function HandlesIn(people: map<UserId, Entry>, seen: set<UserId>): set<Timer> {
    set u | u in seen && u in people && people[u].grace.Some? :: people[u].grace.value
  }

  lemma HandlesInMore(people: map<UserId, Entry>, seen: set<UserId>, u: UserId)
    requires u in people
    ensures HandlesIn(people, seen + {u}) == HandlesIn(people, seen) +
      if people[u].grace.Some? then {people[u].grace.value} else {}
  {
  }

  /** byUser once the listed users have been freed from call `c`. */
  ghost function Freed(byUser: map<UserId, CallId>, c: CallId, seen: set<UserId>): map<UserId, CallId> {
    map u | u in byUser && !(u in seen && byUser[u] == c) :: byUser[u]
  }

  lemma FreedMore(byUser: map<UserId, CallId>, c: CallId, seen: set<UserId>, u: UserId)
    requires u !in seen
    ensures Freed(byUser, c, seen + {u}) ==
      var before := Freed(byUser, c, seen);
      if u in before && before[u] == c then before - {u} else before
  {
  }
}
