/**
 Sending a message: one tab's outbox entries, the requests they emit, and the server's
 handler, cut where it waits for the database. Requests and acks may be delayed or lost,
 a batch may fail or commit without its answer coming back, and handlers may die.
 */
module SendModel {
  import opened Common

  type User = string

  type MsgId = string

  datatype Tab = Tab(user: User, n: nat)

  // ----- the server ----------------------------------------------------------------

  /** A row of `message`; SYSTEM, CALL and forwarded messages carry no client id. */
  datatype Row = Row(id: MsgId, sender: User, clientMsgId: Option<string>)

  datatype Answer = Ok(id: MsgId) | Err

  /** Where one `message:send` is. */
  datatype Stage =
    | Travelling              // emitted, perhaps still buffered in the browser
    | Inserting               // admitted, the insert-or-ignore batch is out
    | Inserted(id: MsgId)     // the batch returned the row; not yet announced
    | Conflicted              // the batch returned nothing; the original is being read
    | Answered(answer: Answer)
    | Gone                    // lost on the way in or out, or its handler died

  datatype Request = Request(tab: Tab, clientMsgId: string, stage: Stage, heard: bool)

  /** `announced` lists every `message:new`; `silenced` logs the rows whose inserting handler never went on. */
  datatype Server = Server(rows: seq<Row>, announced: seq<Row>, requests: seq<Request>, silenced: set<MsgId>)

  /** The original of a client message, as the unique index finds it. */
  function Original(rows: seq<Row>, sender: User, clientMsgId: string): (r: Option<Row>)
    ensures r.Some? ==> r.value in rows && r.value.sender == sender && r.value.clientMsgId == Some(clientMsgId)
    ensures r.None? ==> forall row | row in rows :: !(row.sender == sender && row.clientMsgId == Some(clientMsgId))
  {
    if rows == [] then None
    else if rows[0].sender == sender && rows[0].clientMsgId == Some(clientMsgId) then Some(rows[0])
    else Original(rows[1..], sender, clientMsgId)
  }

  function SetStage(s: Server, i: nat, stage: Stage): Server
    requires i < |s.requests|
  {
    s.(requests := s.requests[i := s.requests[i].(stage := stage)])
  }

  /** Shape checks, the rate limit, membership and blocks either refuse a send or let it insert. */
  function Arrive(s: Server, i: nat, admitted: bool): Server
    requires i < |s.requests|
  {
    SetStage(s, i, if admitted then Inserting else Answered(Err))
  }

  /** The batch commits; when its answer is lost the handler only sees an error. */
  function Commit(s: Server, i: nat, newId: MsgId, answerComes: bool): Server
    requires i < |s.requests|
  {
    var req := s.requests[i];
    if Original(s.rows, req.tab.user, req.clientMsgId).Some? then
      SetStage(s, i, if answerComes then Conflicted else Answered(Err))
    else
      var s' := s.(rows := s.rows + [Row(newId, req.tab.user, Some(req.clientMsgId))]);
      if answerComes then SetStage(s', i, Inserted(newId))
      else SetStage(s', i, Answered(Err)).(silenced := s.silenced + {newId})
  }

  function FailBatch(s: Server, i: nat): Server
    requires i < |s.requests|
  {
    SetStage(s, i, Answered(Err))
  }

  /** After its batch: announce and ack the new row, or ack the original. */
  function GoOn(s: Server, i: nat, readFails: bool): Server
    requires i < |s.requests|
  {
    var req := s.requests[i];
    match req.stage
    case Inserted(id) =>
      SetStage(s.(announced := s.announced + [Row(id, req.tab.user, Some(req.clientMsgId))]), i, Answered(Ok(id)))
    case Conflicted =>
      var original := Original(s.rows, req.tab.user, req.clientMsgId);
      SetStage(s, i, if readFails then Answered(Err) else if original.Some? then Answered(Ok(original.value.id)) else Gone)
    case _ => s
  }

  /** The request or its ack is lost, or the process dies under the handler. */
  function Lose(s: Server, i: nat): Server
    requires i < |s.requests|
  {
    var stage := s.requests[i].stage;
    var s' := SetStage(s, i, Gone);
    if stage.Inserted? then s'.(silenced := s.silenced + {stage.id}) else s'
  }

  /** The handler's database work and emits, in place. */
  class SendHandlers {
    var rows: seq<Row>
    var announced: seq<Row>
    var requests: seq<Request>
    ghost var silenced: set<MsgId>

    ghost function View(): Server
      reads this
    {
      Server(rows, announced, requests, silenced)
    }

    constructor ()
      ensures View() == Server([], [], [], {})
    {
      rows, announced, requests, silenced := [], [], [], {};
    }

    method FindOriginal(sender: User, clientMsgId: string) returns (original: Option<Row>)
      ensures original == Original(rows, sender, clientMsgId)
    {
      var i := 0;
      while i < |rows|
        invariant 0 <= i <= |rows| && Original(rows, sender, clientMsgId) == Original(rows[i..], sender, clientMsgId)
      {
        if rows[i].sender == sender && rows[i].clientMsgId == Some(clientMsgId) { return Some(rows[i]); }
        i := i + 1;
      }
      return None;
    }

    /** The insert-or-ignore batch of request i. */
    method InsertOrIgnore(i: nat, newId: MsgId, answerComes: bool)
      requires i < |requests|
      modifies this
      ensures View() == Commit(old(View()), i, newId, answerComes)
    {
      var req := requests[i];
      var original := FindOriginal(req.tab.user, req.clientMsgId);
      var stage := Conflicted;
      if original.None? {
        rows := rows + [Row(newId, req.tab.user, Some(req.clientMsgId))];
        stage := Inserted(newId);
        if !answerComes { silenced := silenced + {newId}; }
      }
      requests := requests[i := req.(stage := if answerComes then stage else Answered(Err))];
    }

    /** What follows the batch. */
    method Continue(i: nat, readFails: bool)
      requires i < |requests|
      modifies this
      ensures View() == GoOn(old(View()), i, readFails)
    {
      var req := requests[i];
      if req.stage.Conflicted? {
        var original := FindOriginal(req.tab.user, req.clientMsgId);
        var stage := Gone;
        if readFails {
          stage := Answered(Err);
        } else if original.Some? {
          stage := Answered(Ok(original.value.id));
        }
        requests := requests[i := req.(stage := stage)];
      } else if req.stage.Inserted? {
        announced := announced + [Row(req.stage.id, req.tab.user, Some(req.clientMsgId))];
        requests := requests[i := req.(stage := Answered(Ok(req.stage.id)))];
      }
    }
  }

  // ----- the browser ---------------------------------------------------------------

  datatype Status = Pending | Failed

  type EntryKey = (Tab, string)

  /** The tabs' outboxes, and a log of what was ever dispatched and discarded. */
  datatype Browser = Browser(outbox: map<EntryKey, Status>, dispatched: set<EntryKey>, discarded: set<EntryKey>)

  function DispatchSend(b: Browser, e: EntryKey): Browser {
    b.(outbox := b.outbox[e := Pending], dispatched := b.dispatched + {e})
  }

  function MarkFailed(b: Browser, e: EntryKey): Browser {
    if e in b.outbox then b.(outbox := b.outbox[e := Failed]) else b
  }

  function ConfirmOutgoing(b: Browser, e: EntryKey): Browser { b.(outbox := b.outbox - {e}) }

  function Discard(b: Browser, e: EntryKey): Browser {
    b.(outbox := b.outbox - {e}, discarded := b.discarded + {e})
  }

  // ----- runs ----------------------------------------------------------------------

  datatype World = World(server: Server, browser: Browser)

  const START := World(Server([], [], [], {}), Browser(map[], {}, {}))

  datatype Step =
    | Send(tab: Tab, clientMsgId: string)   // first dispatch or retry: the same client id
    | Arrives(i: nat, admitted: bool)
    | Commits(i: nat, newId: MsgId, answerComes: bool)
    | Fails(i: nat)
    | Continues(i: nat, readFails: bool)
    | IsLost(i: nat)
    | IsHeard(i: nat)                       // the ack reaches the callback in time
    | TimesOut(i: nat)                      // the callback runs without one
    | Delivered(tab: Tab, k: nat)           // a message:new reaches a tab
    | Discarded(tab: Tab, clientMsgId: string)
    | OtherInsert(row: Row)                 // SYSTEM, CALL, forwarded

  predicate AtStage(s: Server, i: nat, stages: set<Stage>) { i < |s.requests| && s.requests[i].stage in stages }

  predicate FreshId(s: Server, id: MsgId) { forall i | 0 <= i < |s.rows| :: s.rows[i].id != id }

  predicate Enabled(w: World, step: Step) {
    match step
    case Send(_, _) => true
    case Arrives(i, _) => AtStage(w.server, i, {Travelling})
    case Commits(i, newId, _) => AtStage(w.server, i, {Inserting}) && FreshId(w.server, newId)
    case Fails(i) => AtStage(w.server, i, {Inserting})
    case Continues(i, _) => i < |w.server.requests| && (w.server.requests[i].stage.Inserted? || w.server.requests[i].stage.Conflicted?)
    case IsLost(i) => i < |w.server.requests|
    case IsHeard(i) => i < |w.server.requests| && w.server.requests[i].stage.Answered? && !w.server.requests[i].heard
    case TimesOut(i) => i < |w.server.requests| && !w.server.requests[i].heard
    case Delivered(_, k) => k < |w.server.announced|
    case Discarded(_, _) => true
    case OtherInsert(row) => row.clientMsgId.None? && FreshId(w.server, row.id)
  }

  function Heard(s: Server, i: nat): Server
    requires i < |s.requests|
  {
    s.(requests := s.requests[i := s.requests[i].(heard := true)])
  }

  function Entry(s: Server, i: nat): EntryKey
    requires i < |s.requests|
  {
    (s.requests[i].tab, s.requests[i].clientMsgId)
  }

  function Next(w: World, step: Step): World
    requires Enabled(w, step)
  {
    var (s, b) := (w.server, w.browser);
    match step
    case Send(tab, c) => World(s.(requests := s.requests + [Request(tab, c, Travelling, false)]), DispatchSend(b, (tab, c)))
    case Arrives(i, admitted) => World(Arrive(s, i, admitted), b)
    case Commits(i, newId, answerComes) => World(Commit(s, i, newId, answerComes), b)
    case Fails(i) => World(FailBatch(s, i), b)
    case Continues(i, readFails) => World(GoOn(s, i, readFails), b)
    case IsLost(i) => World(Lose(s, i), b)
    case IsHeard(i) =>
      World(Heard(s, i), if s.requests[i].stage.answer.Ok? then ConfirmOutgoing(b, Entry(s, i)) else MarkFailed(b, Entry(s, i)))
    case TimesOut(i) => World(Heard(s, i), MarkFailed(b, Entry(s, i)))
    case Delivered(tab, k) =>
      World(s, if s.announced[k].clientMsgId.Some? then ConfirmOutgoing(b, (tab, s.announced[k].clientMsgId.value)) else b)
    case Discarded(tab, c) => World(s, Discard(b, (tab, c)))
    case OtherInsert(row) => World(s.(rows := s.rows + [row]), b)
  }

  /** Where the run ends; None when one of its steps was not possible. */
  function Run(steps: seq<Step>): Option<World> {
    if steps == [] then Some(START)
    else
      var before := Run(steps[..|steps|-1]);
      if before.Some? && Enabled(before.value, steps[|steps|-1]) then Some(Next(before.value, steps[|steps|-1])) else None
  }

  ghost predicate Reachable(w: World) { exists steps :: Run(steps) == Some(w) }

  /** Client ids are drawn at random, so no two users ever send the same one. */
  ghost predicate IdsOwned(steps: seq<Step>, owner: string -> User) {
    forall step | step in steps && step.Send? :: owner(step.clientMsgId) == step.tab.user
  }
}
