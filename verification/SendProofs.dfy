/** Exactly-once sending: what every step of a run keeps, and what it means for rows, acks and broadcasts. */
module SendProofs {
  import opened Common
  import opened SendModel

  // ----- the invariant -------------------------------------------------------------

  ghost predicate SameKey(a: Row, b: Row) {
    a.clientMsgId.Some? && a.sender == b.sender && a.clientMsgId == b.clientMsgId
  }

  ghost predicate RowsDistinct(rows: seq<Row>) {
    forall i, j | 0 <= i < j < |rows| :: rows[i].id != rows[j].id && !SameKey(rows[i], rows[j])
  }

  function RowOf(req: Request, id: MsgId): Row { Row(id, req.tab.user, Some(req.clientMsgId)) }

  /** What a request knows of the rows is so. */
  ghost predicate StageIsTrue(rows: seq<Row>, req: Request) {
    match req.stage
    case Inserted(id) => RowOf(req, id) in rows
    case Answered(Ok(id)) => RowOf(req, id) in rows
    case Conflicted => Original(rows, req.tab.user, req.clientMsgId).Some?
    case _ => true
  }

  ghost predicate StagesAreTrue(s: Server) {
    forall i | 0 <= i < |s.requests| :: StageIsTrue(s.rows, s.requests[i])
  }

  function InsertedId(req: Request): set<MsgId> { if req.stage.Inserted? then {req.stage.id} else {} }

  ghost predicate InsertedOnce(reqs: seq<Request>) {
    forall i, j | 0 <= i < j < |reqs| :: InsertedId(reqs[i]) !! InsertedId(reqs[j])
  }

  function PendingIds(reqs: seq<Request>): set<MsgId> {
    set i, id | 0 <= i < |reqs| && id in InsertedId(reqs[i]) :: id
  }

  function ClientIds(rows: seq<Row>): set<MsgId> { set row | row in rows && row.clientMsgId.Some? :: row.id }

  /** Every client message is announced, still to be announced by the request that inserted it, or silenced: one of the three. */
  ghost predicate Partitioned(s: Server) {
    var (announced, pending) := (ClientIds(s.announced), PendingIds(s.requests));
    && ClientIds(s.rows) == announced + pending + s.silenced
    && announced !! pending && announced !! s.silenced && pending !! s.silenced
  }

  ghost predicate AnnouncedOnce(rows: seq<Row>, announced: seq<Row>) {
    && (forall row | row in announced :: row in rows && row.clientMsgId.Some?)
    && (forall i, j | 0 <= i < j < |announced| :: announced[i].id != announced[j].id)
  }

  ghost predicate ServerInv(s: Server) {
    RowsDistinct(s.rows) && StagesAreTrue(s) && InsertedOnce(s.requests) && Partitioned(s) && AnnouncedOnce(s.rows, s.announced)
  }

  // ----- what the pieces of a step do to it ----------------------------------------

  lemma RestagedRequests(reqs: seq<Request>, i: nat, req: Request)
    requires i < |reqs| && InsertedOnce(reqs)
    requires InsertedId(req) !! PendingIds(reqs) || InsertedId(req) == InsertedId(reqs[i])
    ensures PendingIds(reqs[i := req]) == PendingIds(reqs) - InsertedId(reqs[i]) + InsertedId(req)
    ensures InsertedOnce(reqs[i := req])
  {
    var reqs' := reqs[i := req];
    forall id ensures id in PendingIds(reqs') <==> id in PendingIds(reqs) - InsertedId(reqs[i]) + InsertedId(req) {
      if id in PendingIds(reqs) && id !in InsertedId(reqs[i]) {
        var j :| 0 <= j < |reqs| && id in InsertedId(reqs[j]);
        assert id in InsertedId(reqs'[j]);
      }
      if id in InsertedId(req) { assert id in InsertedId(reqs'[i]); }
    }
    forall j | 0 <= j < |reqs| && j != i ensures InsertedId(reqs[j]) !! InsertedId(req) {
      assert InsertedId(reqs[j]) <= PendingIds(reqs);
    }
  }

  lemma RequestsGrow(reqs: seq<Request>, req: Request)
    requires InsertedId(req) == {} && InsertedOnce(reqs)
    ensures PendingIds(reqs + [req]) == PendingIds(reqs) && InsertedOnce(reqs + [req])
  {
    var reqs' := reqs + [req];
    assert forall i | 0 <= i < |reqs| :: reqs'[i] == reqs[i];
    forall id | id in PendingIds(reqs) ensures id in PendingIds(reqs') {
      var j :| 0 <= j < |reqs| && id in InsertedId(reqs[j]);
      assert id in InsertedId(reqs'[j]);
    }
  }

  lemma RowsGrow(s: Server, row: Row)
    requires RowsDistinct(s.rows) && StagesAreTrue(s) && FreshId(s, row.id)
    requires forall r | r in s.rows :: !SameKey(r, row)
    ensures RowsDistinct(s.rows + [row]) && StagesAreTrue(s.(rows := s.rows + [row]))
    ensures ClientIds(s.rows + [row]) == ClientIds(s.rows) + (if row.clientMsgId.Some? then {row.id} else {})
  {
    var rows := s.rows + [row];
    assert forall i | 0 <= i < |s.rows| :: rows[i] in s.rows;
    forall i | 0 <= i < |s.requests| ensures StageIsTrue(rows, s.requests[i]) {
      var req := s.requests[i];
      assert StageIsTrue(s.rows, req);
      var original := Original(s.rows, req.tab.user, req.clientMsgId);
      assert original.Some? ==> original.value in rows;
    }
  }

  lemma ClientIdsGrow(rows: seq<Row>, row: Row)
    requires row.clientMsgId.Some?
    ensures ClientIds(rows + [row]) == ClientIds(rows) + {row.id}
  {
    assert forall r :: r in rows + [row] <==> r in rows || r == row;
  }

  lemma FreshIdIsUnknown(s: Server, id: MsgId)
    requires FreshId(s, id) && Partitioned(s)
    ensures id !in ClientIds(s.announced) && id !in PendingIds(s.requests) && id !in s.silenced
  {
    assert id !in ClientIds(s.rows);
  }

  // ----- every step keeps it -------------------------------------------------------

  lemma RestageKeepsInv(s: Server, i: nat, stage: Stage)
    requires ServerInv(s) && i < |s.requests|
    requires !stage.Inserted? && !s.requests[i].stage.Inserted?
    requires StageIsTrue(s.rows, s.requests[i].(stage := stage))
    ensures ServerInv(SetStage(s, i, stage))
  {
    hide RowsDistinct, AnnouncedOnce, ClientIds, PendingIds, InsertedOnce;
    RestagedRequests(s.requests, i, s.requests[i].(stage := stage));
  }

  lemma CommitKeepsInv(s: Server, i: nat, newId: MsgId, answerComes: bool)
    requires ServerInv(s) && AtStage(s, i, {Inserting}) && FreshId(s, newId)
    ensures ServerInv(Commit(s, i, newId, answerComes))
  {
    hide RowsDistinct, PendingIds, InsertedOnce, ClientIds;
    var req := s.requests[i];
    if Original(s.rows, req.tab.user, req.clientMsgId).Some? {
      RestageKeepsInv(s, i, if answerComes then Conflicted else Answered(Err));
    } else {
      var row := RowOf(req, newId);
      FreshIdIsUnknown(s, newId);
      RowsGrow(s, row);
      RestagedRequests(s.requests, i, req.(stage := if answerComes then Inserted(newId) else Answered(Err)));
      assert row in s.rows + [row];
    }
  }

  lemma GoOnKeepsInv(s: Server, i: nat, readFails: bool)
    requires ServerInv(s) && i < |s.requests|
    ensures ServerInv(GoOn(s, i, readFails))
  {
    hide RowsDistinct, PendingIds, InsertedOnce, ClientIds;
    var req := s.requests[i];
    if req.stage.Inserted? {
      var row := RowOf(req, req.stage.id);
      assert StageIsTrue(s.rows, req);
      InsertedIsPending(s.requests, i);
      RestagedRequests(s.requests, i, req.(stage := Answered(Ok(row.id))));
      ClientIdsGrow(s.announced, row);
      AnnounceOnce(s.rows, s.announced, row);
    } else if req.stage.Conflicted? {
      var original := Original(s.rows, req.tab.user, req.clientMsgId);
      RestageKeepsInv(s, i, if readFails then Answered(Err) else if original.Some? then Answered(Ok(original.value.id)) else Gone);
    }
  }

  lemma InsertedIsPending(reqs: seq<Request>, i: nat)
    requires i < |reqs|
    ensures InsertedId(reqs[i]) <= PendingIds(reqs)
  {
  }

  lemma AnnounceOnce(rows: seq<Row>, announced: seq<Row>, row: Row)
    requires AnnouncedOnce(rows, announced) && row in rows && row.clientMsgId.Some? && row.id !in ClientIds(announced)
    ensures AnnouncedOnce(rows, announced + [row])
  {
    forall i | 0 <= i < |announced| ensures announced[i].id != row.id {
      assert announced[i] in announced;
    }
  }

  lemma LoseKeepsInv(s: Server, i: nat)
    requires ServerInv(s) && i < |s.requests|
    ensures ServerInv(Lose(s, i))
  {
    hide RowsDistinct, PendingIds, InsertedOnce, ClientIds, AnnouncedOnce;
    if s.requests[i].stage.Inserted? {
      InsertedIsPending(s.requests, i);
      RestagedRequests(s.requests, i, s.requests[i].(stage := Gone));
    } else {
      RestageKeepsInv(s, i, Gone);
    }
  }

  lemma HeardKeepsInv(s: Server, i: nat)
    requires ServerInv(s) && i < |s.requests|
    ensures ServerInv(Heard(s, i))
  {
    hide RowsDistinct, PendingIds, InsertedOnce, ClientIds, AnnouncedOnce;
    RestagedRequests(s.requests, i, s.requests[i].(heard := true));
    InsertedIsPending(s.requests, i);
  }

  lemma NextKeepsServerInv(w: World, step: Step)
    requires ServerInv(w.server) && Enabled(w, step)
    ensures ServerInv(Next(w, step).server)
  {
    hide RowsDistinct, PendingIds, InsertedOnce, ClientIds, Commit, GoOn, Lose;
    match step
    case Send(tab, c) => RequestsGrow(w.server.requests, Request(tab, c, Travelling, false));
    case Arrives(i, admitted) => RestageKeepsInv(w.server, i, if admitted then Inserting else Answered(Err));
    case Commits(i, newId, answerComes) => CommitKeepsInv(w.server, i, newId, answerComes);
    case Fails(i) => RestageKeepsInv(w.server, i, Answered(Err));
    case Continues(i, readFails) => GoOnKeepsInv(w.server, i, readFails);
    case IsLost(i) => LoseKeepsInv(w.server, i);
    case IsHeard(i) => HeardKeepsInv(w.server, i);
    case TimesOut(i) => HeardKeepsInv(w.server, i);
    case OtherInsert(row) => RowsGrow(w.server, row);
    case _ =>
  }

  // ----- the browser ---------------------------------------------------------------

  /** Another user's message was announced under the same client id. */
  ghost predicate Mistaken(announced: seq<Row>, e: EntryKey) {
    exists row :: row in announced && row.clientMsgId == Some(e.1) && row.sender != e.0.user
  }

  /** Where a dispatched entry went: its outbox, a discard, the table, or a confirmation meant for somebody else. */
  ghost predicate EntryAccounted(w: World, e: EntryKey) {
    || e in w.browser.outbox || e in w.browser.discarded
    || Original(w.server.rows, e.0.user, e.1).Some? || Mistaken(w.server.announced, e)
  }

  ghost predicate EntriesAccounted(w: World) {
    forall e | e in w.browser.dispatched :: EntryAccounted(w, e)
  }

  lemma ServerOnlyGrows(w: World, step: Step)
    requires Enabled(w, step)
    ensures w.server.rows <= Next(w, step).server.rows && w.server.announced <= Next(w, step).server.announced
  {
  }

  lemma OriginalStays(rows: seq<Row>, rows': seq<Row>, user: User, c: string)
    requires rows <= rows' && Original(rows, user, c).Some?
    ensures Original(rows', user, c).Some?
  {
    assert Original(rows, user, c).value in rows';
  }

  lemma AccountStays(w: World, w': World, e: EntryKey)
    requires EntryAccounted(w, e) && w.server.rows <= w'.server.rows && w.server.announced <= w'.server.announced
    requires e in w.browser.outbox ==> e in w'.browser.outbox
    requires w.browser.discarded <= w'.browser.discarded
    ensures EntryAccounted(w', e)
  {
    if Original(w.server.rows, e.0.user, e.1).Some? { OriginalStays(w.server.rows, w'.server.rows, e.0.user, e.1); }
  }

  /** What takes an entry out of an outbox: a discard, an ok ack, which names its row, or a broadcast under its id. */
  lemma NextKeepsAccounts(w: World, step: Step)
    requires ServerInv(w.server) && Enabled(w, step) && EntriesAccounted(w)
    ensures EntriesAccounted(Next(w, step))
  {
    hide RowsDistinct, Partitioned, InsertedOnce, EntryAccounted, StageIsTrue, Next;
    ServerOnlyGrows(w, step);
    var w' := Next(w, step);
    forall e | e in w'.browser.dispatched ensures EntryAccounted(w', e) {
      EntryStays(w, step, e);
    }
  }

  lemma EntryStays(w: World, step: Step, e: EntryKey)
    requires StagesAreTrue(w.server) && AnnouncedOnce(w.server.rows, w.server.announced) && Enabled(w, step)
    requires e in w.browser.dispatched ==> EntryAccounted(w, e)
    requires e in Next(w, step).browser.dispatched
    ensures EntryAccounted(Next(w, step), e)
  {
    hide Commit, GoOn, Lose, Arrive, FailBatch, EntryAccounted, AnnouncedOnce, StageIsTrue, Mistaken;
    var w' := Next(w, step);
    ServerOnlyGrows(w, step);
    if e in w.browser.outbox && e !in w'.browser.outbox {
      if step.IsHeard? { AckedIsStored(w.server, step.i); }
      if step.Delivered? { AnnouncedIsStored(w.server, step.k, e); }
      LeftOutbox(w, w', e);
    } else if e in w.browser.dispatched {
      AccountStays(w, w', e);
    } else {
      LeftOutbox(w, w', e);
    }
  }

  lemma LeftOutbox(w: World, w': World, e: EntryKey)
    requires w.server.rows <= w'.server.rows && w.server.announced <= w'.server.announced
    requires || e in w'.browser.outbox || e in w'.browser.discarded
             || Original(w.server.rows, e.0.user, e.1).Some? || Mistaken(w.server.announced, e)
    ensures EntryAccounted(w', e)
  {
    if Original(w.server.rows, e.0.user, e.1).Some? { OriginalStays(w.server.rows, w'.server.rows, e.0.user, e.1); }
  }

  lemma AckedIsStored(s: Server, i: nat)
    requires StagesAreTrue(s) && i < |s.requests| && s.requests[i].stage.Answered? && s.requests[i].stage.answer.Ok?
    ensures Original(s.rows, s.requests[i].tab.user, s.requests[i].clientMsgId).Some?
  {
    assert StageIsTrue(s.rows, s.requests[i]);
  }

  lemma AnnouncedIsStored(s: Server, k: nat, e: EntryKey)
    requires AnnouncedOnce(s.rows, s.announced) && k < |s.announced| && s.announced[k].clientMsgId == Some(e.1)
    ensures Original(s.rows, e.0.user, e.1).Some? || Mistaken(s.announced, e)
  {
    assert s.announced[k] in s.announced && s.announced[k] in s.rows;
  }

  /** Rows carry the ids their senders dispatched. */
  ghost predicate RowsOwned(rows: seq<Row>, owner: string -> User) {
    forall row | row in rows && row.clientMsgId.Some? :: owner(row.clientMsgId.value) == row.sender
  }

  ghost predicate RequestsOwned(reqs: seq<Request>, owner: string -> User) {
    forall i | 0 <= i < |reqs| :: owner(reqs[i].clientMsgId) == reqs[i].tab.user
  }

  lemma NextKeepsOwned(w: World, step: Step, owner: string -> User)
    requires Enabled(w, step) && RowsOwned(w.server.rows, owner) && RequestsOwned(w.server.requests, owner)
    requires step.Send? ==> owner(step.clientMsgId) == step.tab.user
    ensures RowsOwned(Next(w, step).server.rows, owner) && RequestsOwned(Next(w, step).server.requests, owner)
  {
  }

  // ----- runs ----------------------------------------------------------------------

  lemma {:induction false} RunKeepsInv(steps: seq<Step>)
    requires Run(steps).Some?
    ensures ServerInv(Run(steps).value.server)
  {
    if steps != [] {
      RunKeepsInv(steps[..|steps|-1]);
      NextKeepsServerInv(Run(steps[..|steps|-1]).value, steps[|steps|-1]);
    }
  }

  lemma {:induction false} RunKeepsAccounts(steps: seq<Step>)
    requires Run(steps).Some?
    ensures EntriesAccounted(Run(steps).value)
  {
    hide Next, Enabled, EntryAccounted, ServerInv;
    if steps == [] {
      assert EntriesAccounted(START);
    } else {
      RunKeepsAccounts(steps[..|steps|-1]);
      RunKeepsInv(steps[..|steps|-1]);
      NextKeepsAccounts(Run(steps[..|steps|-1]).value, steps[|steps|-1]);
    }
  }

  lemma {:induction false} OwnedRunKeepsOwned(steps: seq<Step>, owner: string -> User)
    requires Run(steps).Some? && IdsOwned(steps, owner)
    ensures RowsOwned(Run(steps).value.server.rows, owner) && RequestsOwned(Run(steps).value.server.requests, owner)
  {
    hide Next, Enabled, RowsOwned, RequestsOwned;
    if steps == [] {
      assert RowsOwned([], owner) && RequestsOwned([], owner) by { NoneOwned(owner); }
    } else {
      var (front, last) := (steps[..|steps|-1], steps[|steps|-1]);
      assert last in steps && forall step | step in front :: step in steps;
      OwnedRunKeepsOwned(front, owner);
      NextKeepsOwned(Run(front).value, last, owner);
    }
  }

  lemma {:induction false} DispatchedWasSent(steps: seq<Step>, e: EntryKey)
    requires Run(steps).Some? && e in Run(steps).value.browser.dispatched
    ensures Send(e.0, e.1) in steps
  {
    var front := steps[..|steps|-1];
    if e in Run(front).value.browser.dispatched { DispatchedWasSent(front, e); }
  }

  lemma NoneOwned(owner: string -> User)
    ensures RowsOwned([], owner) && RequestsOwned([], owner)
  {
  }
}
