/** Exactly-once sending in the system's own terms, for every run; and two runs that show where it stops. */
module SendResults {
  import opened Common
  import opened SendModel
  import opened SendProofs

  lemma ReachableInv(w: World)
    requires Reachable(w)
    ensures ServerInv(w.server)
  {
    var steps :| Run(steps) == Some(w);
    RunKeepsInv(steps);
  }

  /** Over any retries, delays and losses a client message is stored at most once and announced at most once. */
  lemma StoredAndAnnouncedOnce(w: World, sender: User, clientMsgId: string)
    requires Reachable(w)
    ensures forall i, j | 0 <= i < j < |w.server.rows| ::
              !(w.server.rows[i].sender == w.server.rows[j].sender == sender
                && w.server.rows[i].clientMsgId == w.server.rows[j].clientMsgId == Some(clientMsgId))
    ensures forall i, j | 0 <= i < j < |w.server.announced| ::
              !(w.server.announced[i].sender == w.server.announced[j].sender == sender
                && w.server.announced[i].clientMsgId == w.server.announced[j].clientMsgId == Some(clientMsgId))
  {
    hide StagesAreTrue, Partitioned, InsertedOnce;
    ReachableInv(w);
    var (rows, announced) := (w.server.rows, w.server.announced);
    forall i, j | 0 <= i < j < |announced| ensures !SameKey(announced[i], announced[j]) {
      assert announced[i] in rows && announced[j] in rows;
      if SameKey(announced[i], announced[j]) { OneRowPerKey(rows, announced[i], announced[j]); }
    }
    assert forall i, j | 0 <= i < j < |rows| :: !SameKey(rows[i], rows[j]);
  }

  lemma OneRowPerKey(rows: seq<Row>, a: Row, b: Row)
    requires RowsDistinct(rows) && a in rows && b in rows && SameKey(a, b)
    ensures a == b
  {
    var i :| 0 <= i < |rows| && rows[i] == a;
    var j :| 0 <= j < |rows| && rows[j] == b;
  }

  /** Every ok ack of one client message, first send or retry, names the same stored row. */
  lemma OkAcksAgree(w: World, i: nat, j: nat)
    requires Reachable(w) && i < |w.server.requests| && j < |w.server.requests|
    requires w.server.requests[i].stage.Answered? && w.server.requests[i].stage.answer.Ok?
    requires w.server.requests[j].stage.Answered? && w.server.requests[j].stage.answer.Ok?
    requires w.server.requests[i].tab.user == w.server.requests[j].tab.user
    requires w.server.requests[i].clientMsgId == w.server.requests[j].clientMsgId
    ensures w.server.requests[i].stage.answer == w.server.requests[j].stage.answer
    ensures RowOf(w.server.requests[i], w.server.requests[i].stage.answer.id) in w.server.rows
  {
    hide RowsDistinct, Partitioned, InsertedOnce, AnnouncedOnce;
    ReachableInv(w);
    var (a, b) := (w.server.requests[i], w.server.requests[j]);
    assert StageIsTrue(w.server.rows, a) && StageIsTrue(w.server.rows, b);
    OneRowPerKey(w.server.rows, RowOf(a, a.stage.answer.id), RowOf(b, b.stage.answer.id));
  }

  /**
   An entry that left its outbox without being discarded has a stored row, or was taken
   for another user's message that carried the same client id.
   */
  lemma VanishedEntryIsStored(w: World, e: EntryKey)
    requires Reachable(w) && e in w.browser.dispatched && e !in w.browser.outbox && e !in w.browser.discarded
    ensures || (exists row :: row in w.server.rows && row.sender == e.0.user && row.clientMsgId == Some(e.1))
            || (exists row :: row in w.server.announced && row.sender != e.0.user && row.clientMsgId == Some(e.1))
  {
    var steps :| Run(steps) == Some(w);
    RunKeepsAccounts(steps);
    assert EntryAccounted(w, e);
    var original := Original(w.server.rows, e.0.user, e.1);
    if original.Some? { assert original.value in w.server.rows; }
  }

  /** So where no two users ever send one client id, it has a stored row. */
  lemma OwnIdsLoseNothing(steps: seq<Step>, owner: string -> User, e: EntryKey)
    requires Run(steps).Some? && IdsOwned(steps, owner)
    requires var b := Run(steps).value.browser; e in b.dispatched && e !in b.outbox && e !in b.discarded
    ensures exists row :: row in Run(steps).value.server.rows && row.sender == e.0.user && row.clientMsgId == Some(e.1)
  {
    hide Run, ServerInv;
    var w := Run(steps).value;
    DispatchedWasSent(steps, e);
    VanishedEntryIsStored(w, e);
    OwnedRunKeepsOwned(steps, owner);
    RunKeepsInv(steps);
    assert AnnouncedOnce(w.server.rows, w.server.announced) by { InvAnnounced(w.server); }
  }

  lemma InvAnnounced(s: Server)
    requires ServerInv(s)
    ensures AnnouncedOnce(s.rows, s.announced)
  {
  }

  /** A stored message has been announced exactly when the request that inserted it went on. */
  lemma AnnouncedExactly(w: World, row: Row)
    requires Reachable(w) && row in w.server.rows && row.clientMsgId.Some?
    ensures row in w.server.announced <==>
              row.id !in w.server.silenced && forall i | 0 <= i < |w.server.requests| :: w.server.requests[i].stage != Inserted(row.id)
  {
    hide StagesAreTrue, InsertedOnce;
    ReachableInv(w);
    var (s, id) := (w.server, row.id);
    assert id in ClientIds(s.rows);
    if row in s.announced {
      assert id in ClientIds(s.announced);
      forall i | 0 <= i < |s.requests| ensures s.requests[i].stage != Inserted(id) { InsertedIsPending(s.requests, i); }
    } else {
      OnlyRowOfId(s, row);
    }
  }

  lemma OnlyRowOfId(s: Server, row: Row)
    requires RowsDistinct(s.rows) && AnnouncedOnce(s.rows, s.announced) && row in s.rows && row !in s.announced
    ensures row.id !in ClientIds(s.announced)
  {
    forall other | other in s.announced && other.id == row.id ensures other == row {
      OneRowPerId(s.rows, row, other);
    }
  }

  lemma OneRowPerId(rows: seq<Row>, a: Row, b: Row)
    requires RowsDistinct(rows) && a in rows && b in rows && a.id == b.id
    ensures a == b
  {
    var i :| 0 <= i < |rows| && rows[i] == a;
    var j :| 0 <= j < |rows| && rows[j] == b;
  }

  // ----- what a tab shows --------------------------------------------------------------

  /** The entry a step tells its tab something of. */
  predicate Tells(w: World, step: Step, e: EntryKey)
    requires Enabled(w, step)
  {
    match step
    case Send(tab, c) => e == (tab, c)
    case IsHeard(i) => e == Entry(w.server, i)
    case TimesOut(i) => e == Entry(w.server, i)
    case Delivered(tab, k) => w.server.announced[k].clientMsgId.Some? && e == (tab, w.server.announced[k].clientMsgId.value)
    case Discarded(tab, c) => e == (tab, c)
    case _ => false
  }

  /** The step is a send without a good end: its ack is an error or does not come in time. */
  predicate Disappoints(w: World, step: Step)
    requires Enabled(w, step)
  {
    step.TimesOut? || (step.IsHeard? && w.server.requests[step.i].stage.answer.Err?)
  }

  /**
   A sent entry is pending; a send that ends badly leaves it, if it is still there, to be
   retried; an ok ack, its broadcast and a discard take it out. No other entry is touched.
   */
  lemma EntriesShowTheirFate(w: World, step: Step, e: EntryKey)
    requires Enabled(w, step)
    ensures var (o, o') := (w.browser.outbox, Next(w, step).browser.outbox);
            if !Tells(w, step, e) then (e in o' <==> e in o) && (e in o ==> o'[e] == o[e])
            else if step.Send? then e in o' && o'[e] == Pending
            else if Disappoints(w, step) then (e in o' <==> e in o) && (e in o ==> o'[e] == Failed)
            else e !in o'
  {
    hide GoOn, Commit, Lose, Arrive, FailBatch;
  }

  ghost predicate Awaited(w: World, e: EntryKey) {
    exists i :: 0 <= i < |w.server.requests| && !w.server.requests[i].heard && Entry(w.server, i) == e
  }

  ghost predicate PendingAwaited(w: World) {
    forall e | e in w.browser.outbox && w.browser.outbox[e] == Pending :: Awaited(w, e)
  }

  lemma CallbacksStay(w: World, step: Step)
    requires Enabled(w, step)
    ensures var (reqs, reqs') := (w.server.requests, Next(w, step).server.requests);
            && |reqs| <= |reqs'|
            && (forall i | 0 <= i < |reqs| :: reqs'[i].tab == reqs[i].tab && reqs'[i].clientMsgId == reqs[i].clientMsgId)
            && (forall i | 0 <= i < |reqs| :: reqs'[i].heard == (reqs[i].heard || ((step.IsHeard? || step.TimesOut?) && step.i == i)))
            && (step.Send? ==> |reqs'| == |reqs| + 1 && !reqs'[|reqs|].heard && Entry(Next(w, step).server, |reqs|) == (step.tab, step.clientMsgId))
  {
    hide Original, DispatchSend, MarkFailed, ConfirmOutgoing, Discard;
  }

  lemma NextKeepsAwaited(w: World, step: Step)
    requires PendingAwaited(w) && Enabled(w, step)
    ensures PendingAwaited(Next(w, step))
  {
    hide Next, Tells;
    var w' := Next(w, step);
    CallbacksStay(w, step);
    forall e | e in w'.browser.outbox && w'.browser.outbox[e] == Pending ensures Awaited(w', e) {
      EntriesShowTheirFate(w, step, e);
      if Tells(w, step, e) {
        SendTells(w, step, e);
        assert Entry(w'.server, |w.server.requests|) == e;
      } else {
        var i :| 0 <= i < |w.server.requests| && !w.server.requests[i].heard && Entry(w.server, i) == e;
        OthersTell(w, step, e, i);
        assert Entry(w'.server, i) == e;
      }
    }
  }

  lemma SendTells(w: World, step: Step, e: EntryKey)
    requires Enabled(w, step) && Tells(w, step, e)
    ensures step.Send? ==> e == (step.tab, step.clientMsgId)
  {
  }

  lemma OthersTell(w: World, step: Step, e: EntryKey, i: nat)
    requires Enabled(w, step) && !Tells(w, step, e) && i < |w.server.requests| && Entry(w.server, i) == e
    ensures !((step.IsHeard? || step.TimesOut?) && step.i == i)
  {
  }

  /** Nothing is pending for ever: a pending entry has a callback still to run. */
  lemma PendingIsAwaited(w: World, e: EntryKey)
    requires Reachable(w) && e in w.browser.outbox && w.browser.outbox[e] == Pending
    ensures exists i :: 0 <= i < |w.server.requests| && !w.server.requests[i].heard && Entry(w.server, i) == e
  {
    var steps :| Run(steps) == Some(w);
    RunKeepsAwaited(steps);
    assert Awaited(w, e);
  }

  lemma {:induction false} RunKeepsAwaited(steps: seq<Step>)
    requires Run(steps).Some?
    ensures PendingAwaited(Run(steps).value)
  {
    hide PendingAwaited, Next, Enabled;
    if steps == [] {
      assert PendingAwaited(START) by { NothingPending(); }
    } else {
      RunKeepsAwaited(steps[..|steps|-1]);
      NextKeepsAwaited(Run(steps[..|steps|-1]).value, steps[|steps|-1]);
    }
  }

  lemma NothingPending()
    ensures PendingAwaited(START)
  {
  }

  // ----- what gets through -------------------------------------------------------------

  /** Request i was admitted and inserted the row. */
  ghost predicate SentBy(steps: seq<Step>, s: Server, row: Row, i: nat) {
    && i < |s.requests| && row.sender == s.requests[i].tab.user && row.clientMsgId == Some(s.requests[i].clientMsgId)
    && Arrives(i, true) in steps
    && Send(s.requests[i].tab, s.requests[i].clientMsgId) in steps
  }

  ghost predicate AllAdmitted(steps: seq<Step>, s: Server) {
    && (forall i | 0 <= i < |s.requests| :: Send(s.requests[i].tab, s.requests[i].clientMsgId) in steps)
    && (forall i | 0 <= i < |s.requests| && s.requests[i].stage.Inserting? :: Arrives(i, true) in steps)
    && (forall row | row in s.rows && row.clientMsgId.Some? :: exists i: nat :: SentBy(steps, s, row, i))
  }

  lemma AdmissionsStay(w: World, step: Step)
    requires Enabled(w, step)
    ensures var (s, s') := (w.server, Next(w, step).server);
            && (forall i | 0 <= i < |s'.requests| && s'.requests[i].stage.Inserting? ::
                  (i < |s.requests| && s.requests[i].stage.Inserting?) || step == Arrives(i, true))
            && (forall row | row in s'.rows && row !in s.rows && row.clientMsgId.Some? ::
                  && step.Commits? && step.i < |s.requests| && s.requests[step.i].stage.Inserting?
                  && row == Row(step.newId, s.requests[step.i].tab.user, Some(s.requests[step.i].clientMsgId)))
            && (forall i | |s.requests| <= i < |s'.requests| :: step == Send(s'.requests[i].tab, s'.requests[i].clientMsgId))
  {
    hide Original, DispatchSend, MarkFailed, ConfirmOutgoing, Discard;
  }

  lemma NextKeepsAdmitted(steps: seq<Step>, w: World, step: Step)
    requires AllAdmitted(steps, w.server) && Enabled(w, step)
    ensures AllAdmitted(steps + [step], Next(w, step).server)
  {
    hide Next, Enabled;
    var (s, s', more) := (w.server, Next(w, step).server, steps + [step]);
    assert step in more && forall st | st in steps :: st in more;
    CallbacksStay(w, step);
    AdmissionsStay(w, step);
    forall row | row in s'.rows && row.clientMsgId.Some? ensures exists i: nat :: SentBy(more, s', row, i) {
      if row in s.rows {
        var i: nat :| SentBy(steps, s, row, i);
        assert SentBy(more, s', row, i);
      } else {
        assert SentBy(more, s', row, step.i);
      }
    }
  }

  /** In every run a stored client message was sent by its sender, in that tab, by a request the server admitted. */
  lemma {:induction false} EveryRowWasAdmitted(steps: seq<Step>)
    requires Run(steps).Some?
    ensures AllAdmitted(steps, Run(steps).value.server)
  {
    hide AllAdmitted, Next, Enabled;
    if steps == [] {
      assert AllAdmitted([], START.server) by { NothingSent(); }
    } else {
      var (front, last) := (steps[..|steps|-1], steps[|steps|-1]);
      EveryRowWasAdmitted(front);
      NextKeepsAdmitted(front, Run(front).value, last);
      assert front + [last] == steps;
    }
  }

  lemma NothingSent()
    ensures AllAdmitted([], START.server)
  {
  }

  ghost predicate Does(w: World, step: Step, w': World) { Enabled(w, step) && w' == Next(w, step) }

  /** A new message that nothing interrupts is stored, announced and acked, and its entry leaves the outbox. */
  lemma SendGetsThrough(w: World, tab: Tab, c: string, id: MsgId) returns (w1: World, w2: World, w3: World, w4: World, w': World)
    requires FreshId(w.server, id) && Original(w.server.rows, tab.user, c).None?
    ensures var i := |w.server.requests|;
            && Does(w, Send(tab, c), w1) && Does(w1, Arrives(i, true), w2) && Does(w2, Commits(i, id, true), w3)
            && Does(w3, Continues(i, false), w4) && Does(w4, IsHeard(i), w')
    ensures w'.server.rows == w.server.rows + [Row(id, tab.user, Some(c))]
    ensures w'.server.announced == w.server.announced + [Row(id, tab.user, Some(c))]
    ensures w'.server.requests == w.server.requests + [Request(tab, c, Answered(Ok(id)), true)]
    ensures (tab, c) !in w'.browser.outbox
  {
    hide Original;
    var i := |w.server.requests|;
    w1 := Next(w, Send(tab, c));
    w2 := Next(w1, Arrives(i, true));
    w3 := Next(w2, Commits(i, id, true));
    w4 := Next(w3, Continues(i, false));
    w' := Next(w4, IsHeard(i));
  }

  /** And sending it once more, when it is stored already, stores and announces nothing, and is acked with the row there is. */
  lemma RetryIsAcked(w: World, tab: Tab, c: string, id: MsgId) returns (w1: World, w2: World, w3: World, w4: World, w': World)
    requires FreshId(w.server, id) && Original(w.server.rows, tab.user, c).Some?
    ensures var i := |w.server.requests|;
            && Does(w, Send(tab, c), w1) && Does(w1, Arrives(i, true), w2) && Does(w2, Commits(i, id, true), w3)
            && Does(w3, Continues(i, false), w4) && Does(w4, IsHeard(i), w')
    ensures w'.server.rows == w.server.rows && w'.server.announced == w.server.announced
    ensures w'.server.requests == w.server.requests + [Request(tab, c, Answered(Ok(Original(w.server.rows, tab.user, c).value.id)), true)]
    ensures (tab, c) !in w'.browser.outbox
  {
    hide Original;
    var i := |w.server.requests|;
    w1 := Next(w, Send(tab, c));
    w2 := Next(w1, Arrives(i, true));
    w3 := Next(w2, Commits(i, id, true));
    w4 := Next(w3, Continues(i, false));
    w' := Next(w4, IsHeard(i));
  }

  // ----- where it stops ------------------------------------------------------------

  lemma RunOneMore(steps: seq<Step>, step: Step)
    requires Run(steps).Some? && Enabled(Run(steps).value, step)
    ensures Run(steps + [step]) == Some(Next(Run(steps).value, step))
  {
    assert (steps + [step])[..|steps|] == steps;
  }

  /** No later step announces a silenced message, retries included. */
  lemma {:induction false} SilenceIsForever(steps: seq<Step>, more: seq<Step>, id: MsgId)
    requires Run(steps).Some? && Run(steps + more).Some? && id in Run(steps).value.server.silenced
    ensures id in Run(steps + more).value.server.silenced
    ensures forall row | row in Run(steps + more).value.server.announced :: row.id != id
    decreases |more|
  {
    var all := steps + more;
    hide Next, Enabled, ServerInv;
    if more == [] {
      assert all == steps;
    } else {
      var front := more[..|more|-1];
      assert all[..|all|-1] == steps + front && all[|all|-1] == more[|more|-1];
      SilenceIsForever(steps, front, id);
      SilencedStays(Run(steps + front).value, more[|more|-1]);
    }
    RunKeepsInv(all);
    SilencedIsUnannounced(Run(all).value.server, id);
  }

  lemma SilencedStays(w: World, step: Step)
    requires Enabled(w, step)
    ensures w.server.silenced <= Next(w, step).server.silenced
  {
  }

  lemma SilencedIsUnannounced(s: Server, id: MsgId)
    requires ServerInv(s) && id in s.silenced
    ensures forall row | row in s.announced :: row.id != id
  {
    hide RowsDistinct, StagesAreTrue, InsertedOnce;
    forall row | row in s.announced ensures row.id != id { assert row.id in ClientIds(s.announced); }
  }

  /** A run to `w` and one step more. */
  lemma ReachesNext(w: World, step: Step)
    requires Reachable(w) && Enabled(w, step)
    ensures Reachable(Next(w, step))
  {
    var steps :| Run(steps) == Some(w);
    RunOneMore(steps, step);
  }

  lemma StartIsReachable()
    ensures Reachable(START)
  {
    assert Run([]) == Some(START);
  }

  /** One stored message "m" of one tab, its requests where they stand. */
  function OneMessage(tab: Tab, first: Request, rest: seq<Request>, status: Status): World {
    World(Server([Row("m", tab.user, Some("c"))], [], [first] + rest, {"m"}),
          Browser(map[(tab, "c") := status], {(tab, "c")}, {}))
  }

  lemma FirstAnswerIsLost(tab: Tab)
    ensures Reachable(OneMessage(tab, Request(tab, "c", Answered(Err), true), [], Failed))
  {
    hide Run, Reachable;
    StartIsReachable();
    var w1 := Next(START, Send(tab, "c"));
    ReachesNext(START, Send(tab, "c"));
    var w2 := Next(w1, Arrives(0, true));
    ReachesNext(w1, Arrives(0, true));
    var w3 := Next(w2, Commits(0, "m", false));
    ReachesNext(w2, Commits(0, "m", false));
    assert w3 == OneMessage(tab, Request(tab, "c", Answered(Err), false), [], Pending);
    ReachesNext(w3, IsHeard(0));
    assert Next(w3, IsHeard(0)) == OneMessage(tab, Request(tab, "c", Answered(Err), true), [], Failed);
  }

  /**
   The room has not always received what a duplicate ack stands for: the commit's answer
   is lost, the retry conflicts and is acked ok, and no message:new was or ever will be sent.
   */
  lemma LostCommitAnswerSilencesMessage(tab: Tab) returns (w: World)
    ensures Reachable(w)
    ensures w.server.rows == [Row("m", tab.user, Some("c"))] && w.server.announced == [] && "m" in w.server.silenced
    ensures w.browser == Browser(map[], {(tab, "c")}, {})
    ensures forall req | req in w.server.requests :: req.stage.Answered? && req.heard
  {
    hide Run, Reachable;
    var first := Request(tab, "c", Answered(Err), true);
    var w0 := OneMessage(tab, first, [], Failed);
    FirstAnswerIsLost(tab);
    ReachesNext(w0, Send(tab, "c"));
    var w1 := OneMessage(tab, first, [Request(tab, "c", Travelling, false)], Pending);
    assert Next(w0, Send(tab, "c")) == w1;
    ReachesNext(w1, Arrives(1, true));
    var w2 := OneMessage(tab, first, [Request(tab, "c", Inserting, false)], Pending);
    assert Next(w1, Arrives(1, true)) == w2;
    ReachesNext(w2, Commits(1, "m2", true));
    var w3 := OneMessage(tab, first, [Request(tab, "c", Conflicted, false)], Pending);
    assert Next(w2, Commits(1, "m2", true)) == w3;
    ReachesNext(w3, Continues(1, false));
    var w4 := OneMessage(tab, first, [Request(tab, "c", Answered(Ok("m")), false)], Pending);
    assert Next(w3, Continues(1, false)) == w4;
    ReachesNext(w4, IsHeard(1));
    w := Next(w4, IsHeard(1));
    assert w.browser.outbox == map[];
  }

  /** Where two users send the same client id, one's broadcast takes the other's entry out unsent. */
  lemma SharedClientIdLosesMessage(alice: Tab, bob: Tab) returns (w: World)
    requires alice.user != bob.user
    ensures Reachable(w)
    ensures (alice, "c") in w.browser.dispatched && (alice, "c") !in w.browser.outbox && w.browser.discarded == {}
    ensures forall row | row in w.server.rows :: row.sender != alice.user
    ensures forall req | req in w.server.requests && req.tab == alice :: req.stage == Gone
  {
    hide Run, Reachable;
    StartIsReachable();
    var w1 := Next(START, Send(alice, "c"));
    ReachesNext(START, Send(alice, "c"));
    var w2 := Next(w1, IsLost(0));
    ReachesNext(w1, IsLost(0));
    var w3 := Next(w2, Send(bob, "c"));
    ReachesNext(w2, Send(bob, "c"));
    var w4 := Next(w3, Arrives(1, true));
    ReachesNext(w3, Arrives(1, true));
    var w5 := Next(w4, Commits(1, "m", true));
    ReachesNext(w4, Commits(1, "m", true));
    assert w5.server.rows == [Row("m", bob.user, Some("c"))];
    var w6 := Next(w5, Continues(1, false));
    ReachesNext(w5, Continues(1, false));
    assert w6.server.announced == [Row("m", bob.user, Some("c"))];
    ReachesNext(w6, Delivered(alice, 0));
    w := Next(w6, Delivered(alice, 0));
  }
}
