/** What merging history with the live store shows, and what it does not depend on. */
module LiveMerge {
  import opened Common
  import opened Strings
  import opened LiveStore

  // ----- what a merge shows --------------------------------------------------------

  ghost predicate StrictlySorted(ms: seq<Message>) {
    forall i, j | 0 <= i < j < |ms| :: Before(ms[i], ms[j])
  }

  lemma BeforeIsStrictTotal(a: Message, b: Message, c: Message)
    ensures !Before(a, a)
    ensures Before(a, b) && Before(b, c) ==> Before(a, c)
    ensures a.id != b.id ==> Before(a, b) || Before(b, a)
    ensures Before(a, b) ==> !Before(b, a)
  {
    LessIsStrict(a.id);
    LessIsStrict(a.createdAt);
    LessIsStrict(b.createdAt);
    LessIsTotal(a.createdAt, b.createdAt);
    LessIsTotal(a.id, b.id);
    if Less(a.createdAt, b.createdAt) && Less(b.createdAt, c.createdAt) { LessIsTransitive(a.createdAt, b.createdAt, c.createdAt); }
    if Less(a.id, b.id) && Less(b.id, c.id) { LessIsTransitive(a.id, b.id, c.id); }
    if Less(a.createdAt, b.createdAt) && Less(b.createdAt, a.createdAt) { LessIsTransitive(a.createdAt, b.createdAt, a.createdAt); }
    if Less(a.id, b.id) && Less(b.id, a.id) { LessIsTransitive(a.id, b.id, a.id); }
  }

  lemma {:induction false} InsertSorts(sorted: seq<Message>, m: Message)
    requires StrictlySorted(sorted) && forall x | x in sorted :: x.id != m.id
    ensures StrictlySorted(Insert(sorted, m))
    ensures forall x :: x in Insert(sorted, m) <==> x in sorted || x == m
  {
    if sorted != [] {
      var (front, last) := (sorted[..|sorted|-1], sorted[|sorted|-1]);
      assert sorted == front + [last];
      BeforeIsStrictTotal(m, last, last);
      if Before(m, last) {
        InsertSorts(front, m);
        assert forall x | x in front :: Before(x, last);
        assert forall x | x in Insert(front, m) :: Before(x, last);
      } else {
        forall x | x in sorted ensures Before(x, m) {
          if x != last { BeforeIsStrictTotal(x, last, m); }
        }
      }
    }
  }

  lemma {:induction false} SortedSorts(ms: seq<Message>)
    requires forall i, j | 0 <= i < j < |ms| :: ms[i].id != ms[j].id
    ensures StrictlySorted(Sorted(ms))
    ensures forall x :: x in Sorted(ms) <==> x in ms
  {
    if ms != [] {
      var (front, last) := (ms[..|ms|-1], ms[|ms|-1]);
      assert ms == front + [last];
      SortedSorts(front);
      InsertSorts(Sorted(front), last);
    }
  }

  lemma LastIsNotInFront(front: seq<Message>, last: Message)
    requires StrictlySorted(front + [last])
    ensures StrictlySorted(front) && forall x | x in front :: x != last && Before(x, last)
  {
    hide Before;
    var p := front + [last];
    BeforeIsStrictTotal(last, last, last);
    assert forall i | 0 <= i < |front| :: p[i] == front[i] && Before(p[i], p[|front|]);
  }

  /** There is only one strictly sorted list of a given set of messages. */
  lemma {:induction false} SortedListIsUnique(p: seq<Message>, q: seq<Message>)
    requires StrictlySorted(p) && StrictlySorted(q) && forall x :: x in p <==> x in q
    ensures p == q
  {
    hide Before, StrictlySorted;
    assert (p == [] || p[0] in p) && (q == [] || q[0] in q);
    if p != [] && q != [] {
      var (pf, pl, qf, ql) := (p[..|p|-1], p[|p|-1], q[..|q|-1], q[|q|-1]);
      assert p == pf + [pl] && q == qf + [ql];
      LastIsNotInFront(pf, pl);
      LastIsNotInFront(qf, ql);
      BeforeIsStrictTotal(pl, ql, pl);
      assert pl in q && ql in p;
      assert pl == ql;
      forall x ensures x in pf <==> x in qf {
        assert (x in p <==> x in pf || x == pl) && (x in q <==> x in qf || x == pl);
      }
      SortedListIsUnique(pf, qf);
    }
  }

  ghost predicate ShownByKey(mk: Marks, byId: map<string, Message>, keys: seq<string>, x: Message) {
    exists k :: k in keys && k in byId && Visible(mk, byId[k]) && x == Marked(mk, byId[k])
  }

  lemma {:induction false} ShownIsVisibleMarked(mk: Marks, byId: map<string, Message>, keys: seq<string>)
    requires forall k | k in keys :: k in byId && byId[k].id == k
    requires forall i, j | 0 <= i < j < |keys| :: keys[i] != keys[j]
    ensures forall x :: x in Shown(mk, byId, keys) <==> ShownByKey(mk, byId, keys, x)
    ensures forall i, j | 0 <= i < j < |Shown(mk, byId, keys)| :: Shown(mk, byId, keys)[i].id != Shown(mk, byId, keys)[j].id
  {
    if keys != [] {
      var (front, last) := (keys[..|keys|-1], keys[|keys|-1]);
      assert keys == front + [last];
      ShownIsVisibleMarked(mk, byId, front);
      var shown := Shown(mk, byId, front);
      forall i | 0 <= i < |shown| ensures shown[i].id != last {
        assert shown[i] in shown;
        var k :| k in front && shown[i] == Marked(mk, byId[k]);
        assert k != last;
      }
    }
  }

  lemma {:induction false} ByIdHoldsLast(ms: seq<Message>)
    ensures forall k | k in ById(ms) :: ById(ms)[k] in ms && ById(ms)[k].id == k
    ensures forall m | m in ms :: m.id in ById(ms)
  {
    if ms != [] {
      assert ms == ms[..|ms|-1] + [ms[|ms|-1]];
      ByIdHoldsLast(ms[..|ms|-1]);
    }
  }

  /** Copies of one message that differ at most by what the marks overwrite anyway. */
  ghost predicate CopiesAgree(mk: Marks, ms: seq<Message>) {
    forall x, y | x in ms && y in ms && x.id == y.id :: Visible(mk, x) == Visible(mk, y) && Marked(mk, x) == Marked(mk, y)
  }

  /** x is some visible copy with the marks applied. */
  ghost predicate ShownFrom(mk: Marks, ms: seq<Message>, x: Message) {
    exists m :: m in ms && Visible(mk, m) && x == Marked(mk, m)
  }

  /**
   The full merge is the strictly (createdAt, id)-sorted list of what history and buffer
   hold, less the hidden, with the marks applied; nothing else about them matters.
   */
  lemma MergeShowsTheUnion(mk: Marks, history: seq<Message>, live: seq<Message>)
    requires CopiesAgree(mk, history + live)
    ensures StrictlySorted(FullMerge(mk, history, live))
    ensures forall x :: x in FullMerge(mk, history, live) <==> ShownFrom(mk, history + live, x)
  {
    hide CopiesAgree, Marked, Visible, Shown, Sorted, ById, KeysInOrder, ShownFrom, ShownByKey;
    var ms := history + live;
    var (byId, keys) := (ById(ms), KeysInOrder(ms));
    ByIdHoldsLast(ms);
    ShownIsVisibleMarked(mk, byId, keys);
    SortedSorts(Shown(mk, byId, keys));
    forall x ensures x in Shown(mk, byId, keys) <==> ShownFrom(mk, ms, x) {
      LastCopyStandsForAll(mk, ms, x);
    }
  }

  lemma LastCopyStandsForAll(mk: Marks, ms: seq<Message>, x: Message)
    requires CopiesAgree(mk, ms)
    ensures ShownByKey(mk, ById(ms), KeysInOrder(ms), x) <==> ShownFrom(mk, ms, x)
  {
    hide Marked, Visible, ById, CopiesAgree;
    ByIdHoldsLast(ms);
    if ShownFrom(mk, ms, x) {
      var m :| m in ms && Visible(mk, m) && x == Marked(mk, m);
      Agreement(mk, ms, m, ById(ms)[m.id]);
      assert m.id in KeysInOrder(ms);
    }
  }

  lemma Agreement(mk: Marks, ms: seq<Message>, x: Message, y: Message)
    requires CopiesAgree(mk, ms) && x in ms && y in ms && x.id == y.id
    ensures Visible(mk, x) == Visible(mk, y) && Marked(mk, x) == Marked(mk, y)
  {
    hide Marked, Visible;
  }

  /** The ids of the merge: what history and buffer hold, less what is hidden. */
  lemma MergedIdsAreTheUnion(mk: Marks, history: seq<Message>, live: seq<Message>, id: string)
    requires CopiesAgree(mk, history + live)
    ensures HasId(FullMerge(mk, history, live), id) <==> exists m :: m in history + live && m.id == id && Visible(mk, m)
  {
    hide CopiesAgree, FullMerge, StrictlySorted, Visible;
    MergeShowsTheUnion(mk, history, live);
    var (ms, merged) := (history + live, FullMerge(mk, history, live));
    if m :| m in ms && m.id == id && Visible(mk, m) {
      assert ShownFrom(mk, ms, Marked(mk, m));
    } else if HasId(merged, id) {
      var i :| 0 <= i < |merged| && merged[i].id == id;
      assert ShownFrom(mk, ms, merged[i]);
    }
  }

  // ----- convergence ---------------------------------------------------------------

  function Ids(ms: seq<Message>): set<string> { set i | 0 <= i < |ms| :: ms[i].id }

  /**
   Two browsers that hold copies of the same ids merge to the same list, whichever
   copies came by history, push or backfill, in whatever order and however often.
   */
  lemma MergesConverge(mk: Marks, history: seq<Message>, live: seq<Message>, history': seq<Message>, live': seq<Message>)
    requires CopiesAgree(mk, (history + live) + (history' + live'))
    requires Ids(history + live) == Ids(history' + live')
    ensures FullMerge(mk, history, live) == FullMerge(mk, history', live')
  {
    hide FullMerge, StrictlySorted, Visible, Marked;
    var (p, q) := (history + live, history' + live');
    forall x, y | x in p && y in p ensures x in p + q && y in p + q {}
    forall x, y | x in q && y in q ensures x in p + q && y in p + q {}
    MergeShowsTheUnion(mk, history, live);
    MergeShowsTheUnion(mk, history', live');
    forall x ensures ShownFrom(mk, p, x) <==> ShownFrom(mk, q, x) {
      SameIdsShowTheSame(mk, p, q, x);
      SameIdsShowTheSame(mk, q, p, x);
    }
    SortedListIsUnique(FullMerge(mk, history, live), FullMerge(mk, history', live'));
  }

  lemma SameIdsShowTheSame(mk: Marks, p: seq<Message>, q: seq<Message>, x: Message)
    requires CopiesAgree(mk, p + q) || CopiesAgree(mk, q + p)
    requires Ids(p) <= Ids(q)
    ensures ShownFrom(mk, p, x) ==> ShownFrom(mk, q, x)
  {
    hide Visible, Marked, CopiesAgree;
    if ShownFrom(mk, p, x) {
      var m :| m in p && Visible(mk, m) && x == Marked(mk, m);
      assert m.id in Ids(q);
      var j :| 0 <= j < |q| && q[j].id == m.id;
      if CopiesAgree(mk, p + q) { Agreement(mk, p + q, m, q[j]); } else { Agreement(mk, q + p, m, q[j]); }
    }
  }

  // ----- marks ---------------------------------------------------------------------

  /** So a copy fetched after the server applied the edit or the delete agrees with a stale one. */
  lemma MarkingTwiceIsMarkingOnce(mk: Marks, m: Message)
    ensures Marked(mk, Marked(mk, m)) == Marked(mk, m)
    ensures Visible(mk, Marked(mk, m)) == Visible(mk, m)
  {
    var marks := Lookup(mk.edited, m.conversationId, map[]);
    if m.id in marks { LessIsStrict(marks[m.id].editedAt); }
  }

  /**
   When a shown tombstone is empty: unless the copy was already a tombstone and carries a
   mark of an edit newer than its own, because an edit is applied without asking.
   */
  lemma TombstoneIsEmptyExactly(mk: Marks, m: Message)
    requires Set(m.deletedAt) ==> m.body.None?
    ensures Set(Marked(mk, m).deletedAt) ==>
              (Marked(mk, m).body.None? <==> !(Set(m.deletedAt) && EditMarkIsNewer(mk, m)))
  {
  }

  /** What the server does to a message: an edit is refused once it is deleted, a delete empties it. */
  datatype Change = Edits(body: string, at: string) | Deletes(at: string)

  function AfterChanges(m: Message, changes: seq<Change>): Message {
    if changes == [] then m
    else
      var before := AfterChanges(m, changes[..|changes|-1]);
      match changes[|changes|-1]
      case Edits(body, at) => if Set(before.deletedAt) then before else before.(body := Some(body), editedAt := Some(at))
      case Deletes(at) => before.(deletedAt := Some(at), body := None, media := None)
  }

  /** The j-th change is an edit that was not refused, so browsers were told of it. */
  predicate Announces(m: Message, changes: seq<Change>, j: nat) {
    j < |changes| && changes[j].Edits? && !Set(AfterChanges(m, changes[..j]).deletedAt)
  }

  predicate ClockRunsForward(changes: seq<Change>) {
    forall i, j | 0 <= i < j < |changes| && changes[i].Edits? && changes[j].Edits? :: !Less(changes[j].at, changes[i].at)
  }

  /** A copy is at or past every edit announced before it was taken. */
  lemma {:induction false} CopyIsPastItsEdits(m: Message, changes: seq<Change>, j: nat)
    requires ClockRunsForward(changes) && Announces(m, changes, j)
    ensures AfterChanges(m, changes).editedAt.Some? && !Less(AfterChanges(m, changes).editedAt.value, changes[j].at)
    decreases |changes|
  {
    var front := changes[..|changes|-1];
    if j < |front| {
      assert front[..j] == changes[..j];
      CopyIsPastItsEdits(m, front, j);
    } else {
      LessIsStrict(changes[j].at);
    }
  }

  lemma {:induction false} DeletedStaysDeleted(m: Message, changes: seq<Change>, k: nat)
    requires k <= |changes| && Set(AfterChanges(m, changes[..k]).deletedAt)
    requires forall change | change in changes && change.Deletes? :: change.at != ""
    ensures Set(AfterChanges(m, changes).deletedAt)
    decreases |changes|
  {
    if k == |changes| {
      assert changes[..k] == changes;
    } else {
      var front := changes[..|changes|-1];
      assert front[..k] == changes[..k] && forall change | change in front :: change in changes;
      assert changes[|changes|-1] in changes;
      DeletedStaysDeleted(m, front, k);
    }
  }

  /** Tombstones are stored empty, under the message's own id and conversation. */
  lemma {:induction false} StoredTombstonesAreEmpty(m: Message, changes: seq<Change>)
    requires Set(m.deletedAt) ==> m.body.None?
    ensures var copy := AfterChanges(m, changes);
            && copy.id == m.id && copy.conversationId == m.conversationId
            && (Set(copy.deletedAt) ==> copy.body.None?)
  {
    if changes != [] { StoredTombstonesAreEmpty(m, changes[..|changes|-1]); }
  }

  /** A browser's mark on the message, if it has one, is one of the announced edits. */
  ghost predicate MarkWasAnnounced(mk: Marks, m: Message, changes: seq<Change>) {
    var marks := Lookup(mk.edited, m.conversationId, map[]);
    m.id in marks ==> exists j: nat :: Announces(m, changes, j) && marks[m.id] == Edit(changes[j].body, changes[j].at)
  }

  /**
   As long as the database clock runs forward over a message's edits, no announced edit
   is newer than a tombstone's own: whenever the copy was fetched and whichever edit the
   browser was last told of, a tombstone is shown empty.
   */
  lemma TombstonesStayEmpty(mk: Marks, m: Message, changes: seq<Change>, k: nat)
    requires ClockRunsForward(changes) && k <= |changes| && MarkWasAnnounced(mk, m, changes)
    requires Set(m.deletedAt) ==> m.body.None?
    requires forall change | change in changes && change.Deletes? :: change.at != ""
    ensures var shown := Marked(mk, AfterChanges(m, changes[..k])); Set(shown.deletedAt) ==> shown.body.None?
  {
    hide AfterChanges, Marked;
    var copy := AfterChanges(m, changes[..k]);
    var marks := Lookup(mk.edited, m.conversationId, map[]);
    StoredTombstonesAreEmpty(m, changes[..k]);
    TombstoneIsEmptyExactly(mk, copy);
    if Set(copy.deletedAt) && m.id in marks {
      var j: nat :| Announces(m, changes, j) && marks[m.id] == Edit(changes[j].body, changes[j].at);
      if j < k {
        assert changes[..k][..j] == changes[..j];
        CopyIsPastItsEdits(m, changes[..k], j);
      } else {
        assert changes[..j][..k] == changes[..k] && forall change | change in changes[..j] :: change in changes;
        DeletedStaysDeleted(m, changes[..j], k);
      }
    }
  }

  /**
   `now()` is a transaction's start, so of two racing edits the one that starts first can
   land last and set the clock back; delete the message then, and browsers that kept the
   newer edit's mark show a body on the tombstone.
   */
  lemma BackwardEditFillsTombstone(m: Message) returns (mk: Marks, changes: seq<Change>)
    requires !Set(m.deletedAt)
    ensures Announces(m, changes, 0) && |changes| == 3
    ensures MarkWasAnnounced(mk, m, changes)
    ensures var copy := AfterChanges(m, changes);
            Set(copy.deletedAt) && copy.body.None? && Marked(mk, copy).body == Some(changes[0].body)
  {
    changes := [Edits("new", "2"), Edits("old", "1"), Deletes("3")];
    mk := Marks(map[], map[], map[m.conversationId := map[m.id := Edit("new", "2")]]);
    assert changes[..0] == [] && changes[..1][..0] == [] && changes[..2][..1] == changes[..1];
    assert AfterChanges(m, changes[..1]) == m.(body := Some("new"), editedAt := Some("2"));
    assert AfterChanges(m, changes[..2]) == m.(body := Some("old"), editedAt := Some("1"));
    assert Less("1", "2");
    assert Announces(m, changes, 0);
  }

  // ----- the buffer ----------------------------------------------------------------

  function OfConversation(ms: seq<Message>, conv: string): seq<Message> {
    if ms == [] then []
    else OfConversation(ms[..|ms|-1], conv) + (if ms[|ms|-1].conversationId == conv then [ms[|ms|-1]] else [])
  }

  /** The buffer holds one of the pushed copies of each pushed id. */
  ghost predicate Gathered(live: seq<Message>, pushed: seq<Message>) {
    Ids(live) == Ids(pushed) && |live| == |Ids(pushed)| && forall m | m in live :: m in pushed
  }

  lemma NothingGathered()
    ensures Gathered([], [])
  {
    assert Ids([]) == {};
  }

  lemma {:induction false} PushingGathersIds(st: Store, ms: seq<Message>, conv: string)
    requires Live(st, conv) == [] && |Ids(OfConversation(ms, conv))| <= MAX_PER_CONVERSATION
    ensures PushAll(st, ms).marks == st.marks
    ensures Gathered(Live(PushAll(st, ms), conv), OfConversation(ms, conv))
  {
    hide Gathered, Ids;
    if ms == [] {
      NothingGathered();
    } else {
      var (front, m) := (ms[..|ms|-1], ms[|ms|-1]);
      var before := OfConversation(front, conv);
      assert before + [] == before;
      if m.conversationId == conv {
        IdsGrow(before, m);
        SubsetSize(Ids(before), Ids(before) + {m.id});
        PushingGathersIds(st, front, conv);
        PushGathersId(Live(PushAll(st, front), conv), before, m);
      } else {
        PushingGathersIds(st, front, conv);
      }
    }
  }

  lemma PushGathersId(live: seq<Message>, pushed: seq<Message>, m: Message)
    requires Gathered(live, pushed) && |Ids(pushed + [m])| <= MAX_PER_CONVERSATION
    ensures Gathered(if HasId(live, m.id) then live else LastOnes(live + [m]), pushed + [m])
  {
    hide Ids;
    IdsGrow(pushed, m);
    IdsGrow(live, m);
    if m.id in Ids(pushed) {
      assert Ids(pushed) + {m.id} == Ids(pushed);
    } else {
      assert |Ids(pushed) + {m.id}| == |Ids(pushed)| + 1;
    }
  }

  lemma IdsGrow(ms: seq<Message>, m: Message)
    ensures Ids(ms + [m]) == Ids(ms) + {m.id}
    ensures HasId(ms, m.id) <==> m.id in Ids(ms)
  {
    assert forall i | 0 <= i < |ms| :: (ms + [m])[i] == ms[i];
    assert (ms + [m])[|ms|] == m;
  }

  lemma {:induction false} SubsetSize<T>(a: set<T>, b: set<T>)
    requires a <= b
    ensures |a| <= |b|
    decreases |a|
  {
    if x :| x in a { SubsetSize(a - {x}, b - {x}); }
  }

  /** Pushing the same at most 200 ids of a conversation in any order, any number of times, merges to one list. */
  lemma PushOrderDoesNotMatter(st: Store, conv: string, history: seq<Message>, p: seq<Message>, q: seq<Message>)
    requires Live(st, conv) == []
    requires Ids(OfConversation(p, conv)) == Ids(OfConversation(q, conv))
    requires |Ids(OfConversation(p, conv))| <= MAX_PER_CONVERSATION
    requires CopiesAgree(st.marks, history + OfConversation(p, conv) + OfConversation(q, conv))
    ensures MergeMessages(st.marks, history, Live(PushAll(st, p), conv)) == MergeMessages(st.marks, history, Live(PushAll(st, q), conv))
  {
    hide FullMerge, Visible, Marked, PushAll, OfConversation, Ids;
    PushingGathersIds(st, p, conv);
    PushingGathersIds(st, q, conv);
    var (a, b) := (Live(PushAll(st, p), conv), Live(PushAll(st, q), conv));
    var all := history + OfConversation(p, conv) + OfConversation(q, conv);
    forall x | x in (history + a) + (history + b) ensures x in all {}
    IdsOfBoth(history, a);
    IdsOfBoth(history, b);
    MergesConverge(st.marks, history, a, history, b);
  }

  lemma IdsOfBoth(p: seq<Message>, q: seq<Message>)
    ensures Ids(p + q) == Ids(p) + Ids(q)
  {
    assert forall i | 0 <= i < |p| :: (p + q)[i] == p[i];
    assert forall i | 0 <= i < |q| :: (p + q)[|p| + i] == q[i];
  }

  /** Beyond 200 the order does matter: the buffer keeps the last 200 first pushed. */
  lemma {:induction false} OverflowDropsTheOldest(st: Store, ms: seq<Message>, conv: string)
    requires Live(st, conv) == [] && forall m | m in ms :: m.conversationId == conv
    requires DistinctIds(ms)
    ensures Live(PushAll(st, ms), conv) == LastOnes(ms)
  {
    if ms != [] {
      var (front, m) := (ms[..|ms|-1], ms[|ms|-1]);
      OverflowDropsTheOldest(st, front, conv);
      assert ms == front + [m];
      LastOnesOfMore(front, m);
      NewIdIsNotBuffered(ms);
    }
  }

  lemma LastOnesOfMore(front: seq<Message>, m: Message)
    ensures LastOnes(LastOnes(front) + [m]) == LastOnes(front + [m])
  {
    var (k, all) := (|front| - MAX_PER_CONVERSATION, front + [m]);
    if k >= 0 {
      assert LastOnes(front) + [m] == all[k..];
      assert all[k..][1..] == all[k+1..];
    }
  }

  lemma NewIdIsNotBuffered(ms: seq<Message>)
    requires ms != [] && DistinctIds(ms)
    ensures !HasId(LastOnes(ms[..|ms|-1]), ms[|ms|-1].id)
  {
    var (n, live) := (|ms| - 1, LastOnes(ms[..|ms|-1]));
    forall i | 0 <= i < |live| ensures live[i].id != ms[n].id {
      assert live[i] == ms[n - |live| + i];
    }
  }

  /** So the merge has the first pushed of more than 200 only if history has it. */
  lemma OverflowLosesAMessage(st: Store, history: seq<Message>, ms: seq<Message>, conv: string)
    requires Live(st, conv) == [] && forall m | m in ms :: m.conversationId == conv
    requires DistinctIds(ms) && |ms| > MAX_PER_CONVERSATION
    requires CopiesAgree(st.marks, history + LastOnes(ms))
    ensures HasId(FullMerge(st.marks, history, Live(PushAll(st, ms), conv)), ms[0].id) <==>
              exists m :: m in history && m.id == ms[0].id && Visible(st.marks, m)
  {
    hide FullMerge, Visible, CopiesAgree, PushAll;
    OverflowDropsTheOldest(st, ms, conv);
    var live := LastOnes(ms);
    MergedIdsAreTheUnion(st.marks, history, live, ms[0].id);
    forall m | m in live ensures m.id != ms[0].id {
      var i :| 0 <= i < |live| && live[i] == m;
      assert live[i] == ms[|ms| - MAX_PER_CONVERSATION + i];
    }
  }

  // ----- the early return ----------------------------------------------------------

  ghost predicate DistinctIds(ms: seq<Message>) {
    forall i, j | 0 <= i < j < |ms| :: ms[i].id != ms[j].id
  }

  /** With nothing buffered and nothing marked, returning history as it is equals the full merge exactly for tidy history. */
  lemma EarlyReturnIsExact(mk: Marks, history: seq<Message>)
    requires NothingToApply(mk)
    ensures MergeMessages(mk, history, []) == FullMerge(mk, history, []) <==> StrictlySorted(history) && DistinctIds(history)
  {
    hide Shown, Sorted, StrictlySorted, DistinctIds, ShownFrom, Visible, Marked, ById, KeysInOrder;
    assert history + [] == history;
    FullMergeIsTidy(mk, history, []);
    if StrictlySorted(history) && DistinctIds(history) {
      TidyCopiesAgree(mk, history);
      MergeShowsTheUnion(mk, history, []);
      forall x ensures x in history <==> ShownFrom(mk, history, x) { UnmarkedShowsItself(mk, history, x); }
      SortedListIsUnique(history, FullMerge(mk, history, []));
    }
  }

  lemma TidyCopiesAgree(mk: Marks, ms: seq<Message>)
    requires DistinctIds(ms)
    ensures CopiesAgree(mk, ms)
  {
    hide Visible, Marked;
  }

  lemma UnmarkedShowsItself(mk: Marks, ms: seq<Message>, x: Message)
    requires NothingToApply(mk)
    ensures x in ms <==> ShownFrom(mk, ms, x)
  {
    assert forall m :: Visible(mk, m) && Marked(mk, m) == m;
  }

  lemma FullMergeIsTidy(mk: Marks, history: seq<Message>, live: seq<Message>)
    ensures StrictlySorted(FullMerge(mk, history, live)) && DistinctIds(FullMerge(mk, history, live))
  {
    hide Shown, Sorted, StrictlySorted, Visible, Marked, ById, KeysInOrder;
    var (byId, keys) := (ById(history + live), KeysInOrder(history + live));
    ByIdHoldsLast(history + live);
    ShownIsVisibleMarked(mk, byId, keys);
    SortedSorts(Shown(mk, byId, keys));
    SortedKeepsIdsDistinct(Shown(mk, byId, keys));
  }

  lemma SortedKeepsIdsDistinct(ms: seq<Message>)
    requires DistinctIds(ms)
    ensures DistinctIds(Sorted(ms))
  {
    SortedSorts(ms);
    var sorted := Sorted(ms);
    forall i, j | 0 <= i < j < |sorted| ensures sorted[i].id != sorted[j].id {
      assert sorted[i] in ms && sorted[j] in ms && Before(sorted[i], sorted[j]);
      BeforeIsStrictTotal(sorted[i], sorted[i], sorted[i]);
    }
  }
}
