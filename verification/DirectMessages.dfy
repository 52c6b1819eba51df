/**
 Opening or creating a DM: concurrent requests over the conversation and member tables,
 each cut at its statements, each able to stop after any of them.
 */
module DirectMessages {
  import opened Common
  import opened DirectKeys

  type UserId = string

  type ConvId = nat

  datatype Conversation = Conversation(id: ConvId, directKey: string)

  type Members = set<(ConvId, UserId)>

  /** Where a request is: the statement it runs next, or how it ended. */
  datatype Stage =
    | Looking                               // reads the conversation and the caller's own member row
    | Creating                              // past the rate limit and the discoverable gate: inserts, or ignores
    | Conflicted                            // reads the winner's row
    | Healing(id: ConvId, created: bool)    // inserts both member rows, ignoring those present
    | Answered(id: ConvId, created: bool)
    | Refused
    | Crashed

  datatype Request = Request(caller: UserId, target: UserId, stage: Stage)

  datatype World = World(convs: seq<Conversation>, members: Members, requests: seq<Request>)

  const START := World([], {}, [])

  function Find(convs: seq<Conversation>, key: string): (c: Option<Conversation>)
    ensures c.Some? ==> c.value in convs && c.value.directKey == key
    ensures c.None? ==> forall d | d in convs :: d.directKey != key
  {
    if convs == [] then None else if convs[0].directKey == key then Some(convs[0]) else Find(convs[1..], key)
  }

  function SetStage(w: World, i: nat, stage: Stage): World
    requires i < |w.requests|
  {
    w.(requests := w.requests[i := w.requests[i].(stage := stage)])
  }

  function KeyOf(req: Request): string { DirectKey(req.caller, req.target) }

  /** The fast path; `admitted` is what the rate limit and the discoverable gate say of a new conversation. */
  function Look(w: World, i: nat, admitted: bool): World
    requires i < |w.requests|
  {
    var existing := Find(w.convs, KeyOf(w.requests[i]));
    SetStage(w, i,
      if existing.None? then (if admitted then Creating else Refused)
      else if (existing.value.id, w.requests[i].caller) in w.members then Answered(existing.value.id, false)
      else Healing(existing.value.id, false))
  }

  /** The unique index on direct_key turns all but the first insert into nothing. */
  function Create(w: World, i: nat, newId: ConvId): World
    requires i < |w.requests|
  {
    var key := KeyOf(w.requests[i]);
    if Find(w.convs, key).Some? then SetStage(w, i, Conflicted)
    else SetStage(w.(convs := w.convs + [Conversation(newId, key)]), i, Healing(newId, true))
  }

  function ReadWinner(w: World, i: nat): World
    requires i < |w.requests|
  {
    var winner := Find(w.convs, KeyOf(w.requests[i]));
    SetStage(w, i, if winner.None? then Refused else Healing(winner.value.id, false))
  }

  /** One statement inserts both rows. */
  function EnsureMembers(w: World, i: nat): World
    requires i < |w.requests| && w.requests[i].stage.Healing?
  {
    var req := w.requests[i];
    SetStage(w.(members := w.members + {(req.stage.id, req.caller), (req.stage.id, req.target)}), i,
      Answered(req.stage.id, req.stage.created))
  }

  // ----- the route's statements, in place ------------------------------------------

  class DirectRoute {
    var convs: seq<Conversation>
    var members: Members
    var requests: seq<Request>

    function View(): World
      reads this
    {
      World(convs, members, requests)
    }

    constructor ()
      ensures View() == START
    {
      convs, members, requests := [], {}, [];
    }

    method FindByKey(key: string) returns (c: Option<Conversation>)
      ensures c == Find(convs, key)
    {
      var i := 0;
      while i < |convs|
        invariant 0 <= i <= |convs| && Find(convs, key) == Find(convs[i..], key)
      {
        if convs[i].directKey == key { return Some(convs[i]); }
        i := i + 1;
      }
      return None;
    }

    method LookUp(i: nat, admitted: bool)
      requires i < |requests|
      modifies this`requests
      ensures View() == Look(old(View()), i, admitted)
    {
      var req := requests[i];
      var existing := FindByKey(KeyOf(req));
      var stage := if admitted then Creating else Refused;
      if existing.Some? {
        stage := Healing(existing.value.id, false);
        if (existing.value.id, req.caller) in members { stage := Answered(existing.value.id, false); }
      }
      requests := requests[i := req.(stage := stage)];
    }

    method InsertOrIgnore(i: nat, newId: ConvId)
      requires i < |requests|
      modifies this`convs, this`requests
      ensures View() == Create(old(View()), i, newId)
    {
      var req := requests[i];
      var existing := FindByKey(KeyOf(req));
      if existing.Some? {
        requests := requests[i := req.(stage := Conflicted)];
      } else {
        convs := convs + [Conversation(newId, KeyOf(req))];
        requests := requests[i := req.(stage := Healing(newId, true))];
      }
    }

    method ReadTheWinner(i: nat)
      requires i < |requests|
      modifies this`requests
      ensures View() == ReadWinner(old(View()), i)
    {
      var winner := FindByKey(KeyOf(requests[i]));
      var stage := Refused;
      if winner.Some? { stage := Healing(winner.value.id, false); }
      requests := requests[i := requests[i].(stage := stage)];
    }

    method InsertMembers(i: nat)
      requires i < |requests| && requests[i].stage.Healing?
      modifies this`members, this`requests
      ensures View() == EnsureMembers(old(View()), i)
    {
      var req := requests[i];
      members := members + {(req.stage.id, req.caller), (req.stage.id, req.target)};
      requests := requests[i := req.(stage := Answered(req.stage.id, req.stage.created))];
    }

    /** A request that nothing interrupts. */
    method Post(caller: UserId, target: UserId, admitted: bool, newId: ConvId) returns (answer: Stage)
      requires caller != target
      modifies this
      ensures answer == Alone(old(View()), caller, target, admitted, newId).requests[|old(requests)|].stage
      ensures View() == Alone(old(View()), caller, target, admitted, newId)
    {
      var i := |requests|;
      requests := requests + [Request(caller, target, Looking)];
      LookUp(i, admitted);
      if requests[i].stage.Creating? { InsertOrIgnore(i, newId); }
      if requests[i].stage.Conflicted? { ReadTheWinner(i); }
      if requests[i].stage.Healing? { InsertMembers(i); }
      return requests[i].stage;
    }
  }

  /** A new request run to its end with no other statement in between. */
  function Alone(w: World, caller: UserId, target: UserId, admitted: bool, newId: ConvId): (w': World)
    ensures |w'.requests| == |w.requests| + 1
  {
    var i := |w.requests|;
    var w1 := Look(w.(requests := w.requests + [Request(caller, target, Looking)]), i, admitted);
    var w2 := if w1.requests[i].stage.Creating? then Create(w1, i, newId) else w1;
    var w3 := if w2.requests[i].stage.Conflicted? then ReadWinner(w2, i) else w2;
    if w3.requests[i].stage.Healing? then EnsureMembers(w3, i) else w3
  }

  // ----- runs ----------------------------------------------------------------------

  datatype Step =
    | Posts(caller: UserId, target: UserId)
    | Looks(i: nat, admitted: bool)
    | Creates(i: nat, newId: ConvId)
    | ReadsWinner(i: nat)
    | Heals(i: nat)
    | Crashes(i: nat)

  predicate At(w: World, i: nat, stage: Stage) { i < |w.requests| && w.requests[i].stage == stage }

  predicate FreshId(w: World, id: ConvId) { forall i | 0 <= i < |w.convs| :: w.convs[i].id != id }

  predicate Enabled(w: World, step: Step) {
    match step
    case Posts(caller, target) => caller != target && Plain(caller) && Plain(target)
    case Looks(i, _) => At(w, i, Looking)
    case Creates(i, newId) => At(w, i, Creating) && FreshId(w, newId)
    case ReadsWinner(i) => At(w, i, Conflicted)
    case Heals(i) => i < |w.requests| && w.requests[i].stage.Healing?
    case Crashes(i) => i < |w.requests|
  }

  function Next(w: World, step: Step): World
    requires Enabled(w, step)
  {
    match step
    case Posts(caller, target) => w.(requests := w.requests + [Request(caller, target, Looking)])
    case Looks(i, admitted) => Look(w, i, admitted)
    case Creates(i, newId) => Create(w, i, newId)
    case ReadsWinner(i) => ReadWinner(w, i)
    case Heals(i) => EnsureMembers(w, i)
    case Crashes(i) => SetStage(w, i, Crashed)
  }

  function Run(steps: seq<Step>): Option<World> {
    if steps == [] then Some(START)
    else
      var before := Run(steps[..|steps|-1]);
      if before.Some? && Enabled(before.value, steps[|steps|-1]) then Some(Next(before.value, steps[|steps|-1])) else None
  }

  ghost predicate Reachable(w: World) { exists steps :: Run(steps) == Some(w) }
}
