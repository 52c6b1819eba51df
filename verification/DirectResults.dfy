/** One DM per pair: what every statement of every request keeps, and what it means for the answers. */
module DirectResults {
  import opened Common
  import opened DirectKeys
  import opened DirectMessages

  // ----- the invariant -------------------------------------------------------------

  ghost predicate ConvsDistinct(convs: seq<Conversation>) {
    forall i, j | 0 <= i < j < |convs| :: convs[i].id != convs[j].id && convs[i].directKey != convs[j].directKey
  }

  /** Where one of a pair is a member, so is the other. */
  ghost predicate PartnersTogether(convs: seq<Conversation>, members: Members) {
    forall c, u, v | c in convs && (c.id, u) in members && Plain(u) && Plain(v) && DirectKey(u, v) == c.directKey ::
      (c.id, v) in members
  }

  /** Nobody else is. */
  ghost predicate MemberFits(convs: seq<Conversation>, id: ConvId, u: UserId) {
    exists c, v :: c in convs && c.id == id && Plain(u) && Plain(v) && DirectKey(u, v) == c.directKey
  }

  ghost predicate MembersFit(convs: seq<Conversation>, members: Members) {
    forall m | m in members :: MemberFits(convs, m.0, m.1)
  }

  ghost predicate RequestIsTrue(convs: seq<Conversation>, members: Members, req: Request) {
    && req.caller != req.target && Plain(req.caller) && Plain(req.target)
    && match req.stage
       case Conflicted => Find(convs, KeyOf(req)).Some?
       case Healing(id, _) => Conversation(id, KeyOf(req)) in convs
       case Answered(id, _) => Conversation(id, KeyOf(req)) in convs && (id, req.caller) in members && (id, req.target) in members
       case _ => true
  }

  ghost predicate RequestsAreTrue(convs: seq<Conversation>, members: Members, reqs: seq<Request>) {
    forall i | 0 <= i < |reqs| :: RequestIsTrue(convs, members, reqs[i])
  }

  /** The conversation a request inserted, while it lives. */
  function CreatedId(req: Request): Option<ConvId> {
    match req.stage
    case Healing(id, true) => Some(id)
    case Answered(id, true) => Some(id)
    case _ => None
  }

  ghost predicate CreatedOnce(reqs: seq<Request>) {
    forall i, j | 0 <= i < j < |reqs| && CreatedId(reqs[i]).Some? :: CreatedId(reqs[i]) != CreatedId(reqs[j])
  }

  ghost predicate Inv(w: World) {
    && ConvsDistinct(w.convs) && PartnersTogether(w.convs, w.members) && MembersFit(w.convs, w.members)
    && RequestsAreTrue(w.convs, w.members, w.requests) && CreatedOnce(w.requests)
  }

  // ----- every statement keeps it --------------------------------------------------

  /** A request changes stage and creates nothing new. */
  lemma RestageKeepsInv(w: World, i: nat, stage: Stage)
    requires Inv(w) && i < |w.requests| && RequestIsTrue(w.convs, w.members, w.requests[i].(stage := stage))
    requires CreatedId(w.requests[i].(stage := stage)) in {None, CreatedId(w.requests[i])}
    ensures Inv(SetStage(w, i, stage))
  {
    hide ConvsDistinct, PartnersTogether, MembersFit, RequestIsTrue;
  }

  lemma FoundIsTheConversation(w: World, req: Request)
    requires Find(w.convs, KeyOf(req)).Some?
    ensures Conversation(Find(w.convs, KeyOf(req)).value.id, KeyOf(req)) in w.convs
  {
    var c := Find(w.convs, KeyOf(req)).value;
    assert c == Conversation(c.id, c.directKey);
  }

  lemma LookKeepsInv(w: World, i: nat, admitted: bool)
    requires Inv(w) && At(w, i, Looking)
    ensures Inv(Look(w, i, admitted))
  {
    hide ConvsDistinct, MembersFit, CreatedOnce, DirectKey, Plain;
    var req := w.requests[i];
    assert RequestIsTrue(w.convs, w.members, req);
    if Find(w.convs, KeyOf(req)).Some? {
      FoundIsTheConversation(w, req);
      KeyIsSymmetric(req.caller, req.target);
    }
    RestageKeepsInv(w, i, Look(w, i, admitted).requests[i].stage);
  }

  lemma CreateKeepsInv(w: World, i: nat, newId: ConvId)
    requires Inv(w) && At(w, i, Creating) && FreshId(w, newId)
    ensures Inv(Create(w, i, newId))
  {
    hide Plain, DirectKey;
    var key := KeyOf(w.requests[i]);
    assert RequestIsTrue(w.convs, w.members, w.requests[i]);
    if Find(w.convs, key).Some? {
      RestageKeepsInv(w, i, Conflicted);
    } else {
      InsertKeepsInv(w, Conversation(newId, key));
      StartHealing(w.(convs := w.convs + [Conversation(newId, key)]), i, newId, w);
    }
  }

  lemma InsertKeepsInv(w: World, c: Conversation)
    requires Inv(w) && FreshId(w, c.id) && Find(w.convs, c.directKey).None?
    ensures Inv(w.(convs := w.convs + [c]))
  {
    hide Plain, DirectKey, CreatedOnce, PartnersTogether, MembersFit, RequestIsTrue;
    InsertKeepsMembers(w.convs, w.members, c);
    forall j | 0 <= j < |w.requests| ensures RequestIsTrue(w.convs + [c], w.members, w.requests[j]) {
      InsertKeepsRequest(w.convs, w.members, w.requests[j], c);
    }
  }

  lemma InsertKeepsMembers(convs: seq<Conversation>, members: Members, c: Conversation)
    requires PartnersTogether(convs, members) && MembersFit(convs, members) && forall d | d in convs :: d.id != c.id
    ensures PartnersTogether(convs + [c], members) && MembersFit(convs + [c], members)
  {
    hide Plain, DirectKey;
    forall m | m in members ensures m.0 != c.id && MemberFits(convs + [c], m.0, m.1) {
      assert MemberFits(convs, m.0, m.1);
    }
  }

  lemma InsertKeepsRequest(convs: seq<Conversation>, members: Members, req: Request, c: Conversation)
    requires RequestIsTrue(convs, members, req)
    ensures RequestIsTrue(convs + [c], members, req)
  {
    hide Plain, DirectKey;
    var found := Find(convs, KeyOf(req));
    assert found.Some? ==> found.value in convs + [c];
  }

  /** The request whose insert won goes on with a conversation no other request created. */
  lemma StartHealing(w: World, i: nat, newId: ConvId, before: World)
    requires Inv(w) && i < |w.requests| && Conversation(newId, KeyOf(w.requests[i])) in w.convs
    requires before.requests == w.requests && RequestsAreTrue(before.convs, before.members, before.requests) && FreshId(before, newId)
    ensures Inv(SetStage(w, i, Healing(newId, true)))
  {
    hide Plain, DirectKey, ConvsDistinct, PartnersTogether, MembersFit;
    forall j | 0 <= j < |w.requests| ensures CreatedId(w.requests[j]) != Some(newId) {
      assert RequestIsTrue(before.convs, before.members, before.requests[j]);
    }
    assert RequestIsTrue(w.convs, w.members, w.requests[i]);
  }

  lemma EnsureKeepsInv(w: World, i: nat)
    requires Inv(w) && i < |w.requests| && w.requests[i].stage.Healing?
    ensures Inv(EnsureMembers(w, i))
  {
    hide Inv;
    var req := w.requests[i];
    var joined := w.members + {(req.stage.id, req.caller), (req.stage.id, req.target)};
    assert RequestIsTrue(w.convs, w.members, req) by { InvRequest(w, i); }
    JoinKeepsInv(w, req, joined);
    RestageKeepsInv(w.(members := joined), i, Answered(req.stage.id, req.stage.created));
  }

  lemma InvRequest(w: World, i: nat)
    requires Inv(w) && i < |w.requests|
    ensures RequestIsTrue(w.convs, w.members, w.requests[i])
  {
  }

  lemma JoinKeepsInv(w: World, req: Request, joined: Members)
    requires Inv(w) && RequestIsTrue(w.convs, w.members, req) && req.stage.Healing?
    requires joined == w.members + {(req.stage.id, req.caller), (req.stage.id, req.target)}
    ensures Inv(w.(members := joined))
  {
    hide Plain, DirectKey, CreatedOnce, ConvsDistinct, PartnersTogether, MembersFit, RequestIsTrue;
    JoinKeepsPartners(w.convs, w.members, req, joined);
    JoinKeepsFit(w.convs, w.members, req, joined);
    forall j | 0 <= j < |w.requests| ensures RequestIsTrue(w.convs, joined, w.requests[j]) {
      assert RequestIsTrue(w.convs, w.members, w.requests[j]);
      MoreMembersKeepRequest(w.convs, w.members, w.requests[j], joined);
    }
  }

  lemma MoreMembersKeepRequest(convs: seq<Conversation>, members: Members, req: Request, joined: Members)
    requires RequestIsTrue(convs, members, req) && members <= joined
    ensures RequestIsTrue(convs, joined, req)
  {
  }

  lemma JoinKeepsPartners(convs: seq<Conversation>, members: Members, req: Request, joined: Members)
    requires ConvsDistinct(convs) && PartnersTogether(convs, members) && RequestIsTrue(convs, members, req) && req.stage.Healing?
    requires joined == members + {(req.stage.id, req.caller), (req.stage.id, req.target)}
    ensures PartnersTogether(convs, joined)
  {
    hide Plain, DirectKey, ConvsDistinct;
    forall c, u, v | c in convs && (c.id, u) in joined && Plain(u) && Plain(v) && DirectKey(u, v) == c.directKey
      ensures (c.id, v) in joined
    {
      if (c.id, u) !in members {
        SameId(convs, c, Conversation(req.stage.id, KeyOf(req)));
        KeyNamesOnePair(u, v, req.caller, req.target);
        assert v in {u, v};
      }
    }
  }

  lemma JoinKeepsFit(convs: seq<Conversation>, members: Members, req: Request, joined: Members)
    requires MembersFit(convs, members) && RequestIsTrue(convs, members, req) && req.stage.Healing?
    requires joined == members + {(req.stage.id, req.caller), (req.stage.id, req.target)}
    ensures MembersFit(convs, joined)
  {
    hide Plain, DirectKey;
    KeyIsSymmetric(req.caller, req.target);
    assert Conversation(req.stage.id, KeyOf(req)) in convs;
    assert MemberFits(convs, req.stage.id, req.caller) && MemberFits(convs, req.stage.id, req.target);
  }

  lemma SameId(convs: seq<Conversation>, c: Conversation, d: Conversation)
    requires ConvsDistinct(convs) && c in convs && d in convs && (c.id == d.id || c.directKey == d.directKey)
    ensures c == d
  {
    var i :| 0 <= i < |convs| && convs[i] == c;
    var j :| 0 <= j < |convs| && convs[j] == d;
  }

  lemma PostKeepsInv(w: World, caller: UserId, target: UserId)
    requires Inv(w) && caller != target && Plain(caller) && Plain(target)
    ensures Inv(w.(requests := w.requests + [Request(caller, target, Looking)]))
  {
    hide Plain, DirectKey, ConvsDistinct, PartnersTogether, MembersFit;
  }

  lemma NextKeepsInv(w: World, step: Step)
    requires Inv(w) && Enabled(w, step)
    ensures Inv(Next(w, step))
  {
    hide ConvsDistinct, PartnersTogether, MembersFit, CreatedOnce, DirectKey, Look, Create, EnsureMembers;
    match step
    case Posts(caller, target) => PostKeepsInv(w, caller, target);
    case Looks(i, admitted) => LookKeepsInv(w, i, admitted);
    case Creates(i, newId) => CreateKeepsInv(w, i, newId);
    case ReadsWinner(i) =>
      assert RequestIsTrue(w.convs, w.members, w.requests[i]);
      FoundIsTheConversation(w, w.requests[i]);
      RestageKeepsInv(w, i, ReadWinner(w, i).requests[i].stage);
    case Heals(i) => EnsureKeepsInv(w, i);
    case Crashes(i) =>
      assert RequestIsTrue(w.convs, w.members, w.requests[i]);
      RestageKeepsInv(w, i, Crashed);
  }

  lemma {:induction false} RunKeepsInv(steps: seq<Step>)
    requires Run(steps).Some?
    ensures Inv(Run(steps).value)
  {
    hide Inv;
    if steps == [] {
      assert Inv(START) by { StartInv(); }
    } else {
      RunKeepsInv(steps[..|steps|-1]);
      NextKeepsInv(Run(steps[..|steps|-1]).value, steps[|steps|-1]);
    }
  }

  lemma StartInv()
    ensures Inv(START)
  {
  }

  lemma ReachableInv(w: World)
    requires Reachable(w)
    ensures Inv(w)
  {
    var steps :| Run(steps) == Some(w);
    RunKeepsInv(steps);
  }

  // ----- what it means -------------------------------------------------------------

  /** However requests of a pair interleave and crash, the pair has at most one conversation. */
  lemma OneConversationPerPair(w: World, a: UserId, b: UserId, c: Conversation, d: Conversation)
    requires Reachable(w) && c in w.convs && d in w.convs
    requires c.directKey == DirectKey(a, b) && d.directKey == DirectKey(b, a)
    ensures c == d
  {
    ReachableInv(w);
    KeyIsSymmetric(a, b);
    SameId(w.convs, c, d);
  }

  /** An answer that carries an id finds both member rows in place, and no third. */
  lemma AnswerFindsBothMembers(w: World, i: nat)
    requires Reachable(w) && i < |w.requests| && w.requests[i].stage.Answered?
    ensures forall u :: (w.requests[i].stage.id, u) in w.members <==> u in {w.requests[i].caller, w.requests[i].target}
  {
    ReachableInv(w);
    MembersAreThePair(w, i);
  }

  lemma MembersAreThePair(w: World, i: nat)
    requires Inv(w) && i < |w.requests| && w.requests[i].stage.Answered?
    ensures forall u :: (w.requests[i].stage.id, u) in w.members <==> u in {w.requests[i].caller, w.requests[i].target}
  {
    hide PartnersTogether, CreatedOnce, Plain, DirectKey;
    var req := w.requests[i];
    assert RequestIsTrue(w.convs, w.members, req);
    var ours := Conversation(req.stage.id, KeyOf(req));
    forall u | (ours.id, u) in w.members ensures u in {req.caller, req.target} {
      assert MemberFits(w.convs, ours.id, u);
      var c, v :| c in w.convs && c.id == ours.id && Plain(u) && Plain(v) && DirectKey(u, v) == c.directKey;
      SameId(w.convs, c, ours);
      KeyNamesOnePair(u, v, req.caller, req.target);
      assert u in {u, v};
    }
  }

  /** Two answers name the same conversation exactly when they were asked for the same pair; at most one says it created it. */
  lemma AnswersAgree(w: World, i: nat, j: nat)
    requires Reachable(w) && i < j < |w.requests|
    requires w.requests[i].stage.Answered? && w.requests[j].stage.Answered?
    ensures var (p, q) := (w.requests[i], w.requests[j]);
            && (p.stage.id == q.stage.id <==> {p.caller, p.target} == {q.caller, q.target})
            && ({p.caller, p.target} == {q.caller, q.target} ==> !(p.stage.created && q.stage.created))
  {
    hide PartnersTogether, MembersFit, Plain, DirectKey;
    ReachableInv(w);
    var (p, q) := (w.requests[i], w.requests[j]);
    assert RequestIsTrue(w.convs, w.members, p) && RequestIsTrue(w.convs, w.members, q);
    KeyNamesOnePair(p.caller, p.target, q.caller, q.target);
    if p.stage.id == q.stage.id || KeyOf(p) == KeyOf(q) {
      SameId(w.convs, Conversation(p.stage.id, KeyOf(p)), Conversation(q.stage.id, KeyOf(q)));
    }
    assert p.stage.created && p.stage.id == q.stage.id ==> CreatedId(p) != CreatedId(q);
  }

  /** The 500 for a vanished winner is never given. */
  lemma WinnerIsAlwaysThere(w: World, i: nat)
    requires Reachable(w) && At(w, i, Conflicted)
    ensures ReadWinner(w, i).requests[i].stage.Healing?
  {
    ReachableInv(w);
    assert RequestIsTrue(w.convs, w.members, w.requests[i]);
  }

  /** Whatever crashed before, the next uninterrupted request of either side gets the conversation, whole. */
  lemma NextClickHeals(w: World, c: Conversation, caller: UserId, target: UserId, admitted: bool, newId: ConvId)
    requires Reachable(w) && caller != target && Plain(caller) && Plain(target)
    requires c in w.convs && c.directKey == DirectKey(caller, target)
    ensures var (w', i) := (Alone(w, caller, target, admitted, newId), |w.requests|);
            && w'.requests[i].stage == Answered(c.id, false)
            && forall u :: (c.id, u) in w'.members <==> u in {caller, target}
  {
    hide Plain, DirectKey, Find, Inv;
    var i := |w.requests|;
    var w0 := w.(requests := w.requests + [Request(caller, target, Looking)]);
    ReachableInv(w);
    PostKeepsInv(w, caller, target);
    FindsIt(w, c);
    LookKeepsInv(w0, i, admitted);
    var w1 := Look(w0, i, admitted);
    if w1.requests[i].stage.Healing? {
      EnsureKeepsInv(w1, i);
      MembersAreThePair(EnsureMembers(w1, i), i);
    } else {
      MembersAreThePair(w1, i);
    }
  }

  lemma FindsIt(w: World, c: Conversation)
    requires Inv(w) && c in w.convs
    ensures Find(w.convs, c.directKey) == Some(c)
  {
    SameId(w.convs, Find(w.convs, c.directKey).value, c);
  }

  // ----- who may open one ------------------------------------------------------------

  /**
   Where the pair has no conversation yet, an admitted request makes one with both of them
   in it, and one over the rate limit or to somebody not discoverable is refused and makes nothing.
   */
  lemma FirstClickOpens(w: World, caller: UserId, target: UserId, admitted: bool, newId: ConvId)
    requires Find(w.convs, DirectKey(caller, target)).None?
    ensures var (w', i) := (Alone(w, caller, target, admitted, newId), |w.requests|);
            && w'.requests[..i] == w.requests
            && if admitted then
                 && w'.requests[i].stage == Answered(newId, true)
                 && w'.convs == w.convs + [Conversation(newId, DirectKey(caller, target))]
                 && w'.members == w.members + {(newId, caller), (newId, target)}
               else w'.requests[i].stage == Refused && w'.convs == w.convs && w'.members == w.members
  {
    hide DirectKey, Find;
  }

  /** Request i was admitted by its look, and then made the conversation. */
  ghost predicate MadeBy(steps: seq<Step>, w: World, c: Conversation, i: nat) {
    && i < |w.requests| && KeyOf(w.requests[i]) == c.directKey
    && Looks(i, true) in steps && Creates(i, c.id) in steps
  }

  ghost predicate AllAdmitted(steps: seq<Step>, w: World) {
    && (forall i | 0 <= i < |w.requests| && w.requests[i].stage.Creating? :: Looks(i, true) in steps)
    && (forall c | c in w.convs :: exists i: nat :: MadeBy(steps, w, c, i))
  }

  lemma NextKeepsAdmitted(steps: seq<Step>, w: World, step: Step)
    requires AllAdmitted(steps, w) && Enabled(w, step)
    ensures AllAdmitted(steps + [step], Next(w, step))
  {
    hide Find, DirectKey, Plain;
    var (w', more) := (Next(w, step), steps + [step]);
    assert step in more && forall st | st in steps :: st in more;
    PairsStay(w, step);
    forall c | c in w'.convs ensures exists i: nat :: MadeBy(more, w', c, i) {
      if c in w.convs {
        var i: nat :| MadeBy(steps, w, c, i);
        assert MadeBy(more, w', c, i);
      } else {
        assert MadeBy(more, w', c, step.i);
      }
    }
  }

  lemma PairsStay(w: World, step: Step)
    requires Enabled(w, step)
    ensures var w' := Next(w, step);
            && |w.requests| <= |w'.requests|
            && (forall i | 0 <= i < |w.requests| :: KeyOf(w'.requests[i]) == KeyOf(w.requests[i]))
            && (forall i | 0 <= i < |w'.requests| && w'.requests[i].stage.Creating? ::
                  (i < |w.requests| && w.requests[i].stage.Creating?) || step == Looks(i, true))
            && (forall c | c in w'.convs && c !in w.convs ::
                  && step.Creates? && step.i < |w.requests| && w.requests[step.i].stage.Creating?
                  && c == Conversation(step.newId, KeyOf(w.requests[step.i])))
  {
    hide Find, DirectKey, Plain;
  }

  /** In every run, however requests interleave: whoever made a conversation had been admitted to. */
  lemma {:induction false} EveryConversationWasAdmitted(steps: seq<Step>)
    requires Run(steps).Some?
    ensures AllAdmitted(steps, Run(steps).value)
  {
    hide AllAdmitted, Next, Enabled;
    if steps == [] {
      assert AllAdmitted([], START) by { NoneYet(); }
    } else {
      var (front, last) := (steps[..|steps|-1], steps[|steps|-1]);
      EveryConversationWasAdmitted(front);
      NextKeepsAdmitted(front, Run(front).value, last);
      assert front + [last] == steps;
    }
  }

  lemma NoneYet()
    ensures AllAdmitted([], START)
  {
  }
}
