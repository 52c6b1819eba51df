/** The reconnect backfill end to end: a page after the anchor, pushed into the live store, then merged. */
module Backfill {
  import opened Common
  import opened LiveStore
  import opened LiveMerge
  import opened Paging

  /** What the browser gets of a row. */
  ghost predicate Shows(toMessage: Key -> Message, conv: string) {
    forall k: Key :: toMessage(k).id == k.id && toMessage(k).conversationId == conv
  }

  /**
   If the page stays under its limit and everything the tab ever pushed for the
   conversation fits its buffer, the merge shows every row newer than the anchor that
   the user has not hidden, and shows a message sent twice once.
   */
  lemma BackfillLosesNothing(
    table: seq<Key>, anchor: Key, limit: nat, toMessage: Key -> Message,
    st: Store, conv: string, history: seq<Message>, pushed: seq<Message>, r: Key)
    requires NewestFirst(table) && r in table && anchor.Below(r) && Shows(toMessage, conv)
    requires |ListAfter(table, anchor.Truncated(), limit)| < Min(limit, BACKFILL_MAX)
    requires forall k | k in ListAfter(table, anchor.Truncated(), limit) :: toMessage(k) in pushed
    requires Live(st, conv) == [] && |Ids(OfConversation(pushed, conv))| <= MAX_PER_CONVERSATION
    requires CopiesAgree(st.marks, history + OfConversation(pushed, conv))
    ensures var merged := MergeMessages(st.marks, history, Live(PushAll(st, pushed), conv));
            && DistinctIds(merged)
            && (HasId(merged, r.id) <==> Visible(st.marks, toMessage(r)))
  {
    hide FullMerge, PushAll, Visible, Marked, DistinctIds;
    BackfillIsPrefixOfEverythingNewer(table, anchor, limit);
    var (m, live, ours) := (toMessage(r), Live(PushAll(st, pushed), conv), OfConversation(pushed, conv));
    OfConversationKeeps(pushed, m);
    PushingGathersIds(st, pushed, conv);
    assert m.id in Ids(live) by { assert m.id in Ids(ours) by { var i :| 0 <= i < |ours| && ours[i] == m; } }
    var j :| 0 <= j < |live| && live[j].id == m.id;
    forall x | x in history + live ensures x in history + ours {}
    MergedIdsAreTheUnion(st.marks, history, live, r.id);
    FullMergeIsTidy(st.marks, history, live);
    forall x | x in history + live && x.id == r.id ensures Visible(st.marks, x) == Visible(st.marks, m) {
      Agreement(st.marks, history + ours, x, m);
    }
    assert live[j] in history + live;
  }

  lemma {:induction false} OfConversationKeeps(ms: seq<Message>, m: Message)
    requires m in ms
    ensures m in OfConversation(ms, m.conversationId)
  {
    var (front, last) := (ms[..|ms|-1], ms[|ms|-1]);
    assert ms == front + [last];
    if m != last { OfConversationKeeps(front, m); }
  }
}
