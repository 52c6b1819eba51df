/**
 The browser's store of messages pushed by the socket server, and the merge of that
 store with server-rendered history. The four media fields are modelled as one.
 */
module LiveStore {
  import opened Common
  import opened Strings

  datatype Message = Message(
    id: string, conversationId: string, createdAt: string,
    body: Option<string>, media: Option<string>, editedAt: Option<string>, deletedAt: Option<string>)

  datatype Edit = Edit(body: string, editedAt: string)

  /** What the merge reads beside its arguments, by conversation and message id. */
  datatype Marks = Marks(
    deleted: map<string, map<string, string>>,
    hidden: map<string, set<string>>,
    edited: map<string, map<string, Edit>>)

  datatype Store = Store(buffers: map<string, seq<Message>>, exitingIds: map<string, set<string>>, marks: Marks)

  const MAX_PER_CONVERSATION := 200

  function Lookup<V>(m: map<string, V>, key: string, missing: V): V { if key in m then m[key] else missing }

  function Live(st: Store, conv: string): seq<Message> { Lookup(st.buffers, conv, []) }

  // ----- the store's changes -------------------------------------------------------

  function LastOnes(ms: seq<Message>): seq<Message> {
    if |ms| <= MAX_PER_CONVERSATION then ms else ms[|ms| - MAX_PER_CONVERSATION..]
  }

  predicate HasId(ms: seq<Message>, id: string) { exists i | 0 <= i < |ms| :: ms[i].id == id }

  function Push(st: Store, m: Message): Store {
    var current := Live(st, m.conversationId);
    if HasId(current, m.id) then st
    else st.(buffers := st.buffers[m.conversationId := LastOnes(current + [m])])
  }

  function PushAll(st: Store, ms: seq<Message>): Store {
    if ms == [] then st else Push(PushAll(st, ms[..|ms|-1]), ms[|ms|-1])
  }

  function Touched(st: Store, conv: string): map<string, seq<Message>> { st.buffers[conv := Live(st, conv)] }

  function MarkEdited(st: Store, conv: string, id: string, edit: Edit): Store {
    var edited := st.marks.edited[conv := Lookup(st.marks.edited, conv, map[])[id := edit]];
    st.(marks := st.marks.(edited := edited), buffers := Touched(st, conv))
  }

  function MarkDeleted(st: Store, conv: string, id: string, deletedAt: string): Store {
    var deleted := st.marks.deleted[conv := Lookup(st.marks.deleted, conv, map[])[id := deletedAt]];
    st.(marks := st.marks.(deleted := deleted), buffers := Touched(st, conv))
  }

  /** The first half of hiding: the message is still shown while it animates out. */
  function MarkHidden(st: Store, conv: string, id: string): Store {
    st.(exitingIds := st.exitingIds[conv := Lookup(st.exitingIds, conv, {}) + {id}])
  }

  function CommitHidden(st: Store, conv: string, id: string): Store {
    var hidden := st.marks.hidden[conv := Lookup(st.marks.hidden, conv, {}) + {id}];
    st.(marks := st.marks.(hidden := hidden),
        exitingIds := st.exitingIds[conv := Lookup(st.exitingIds, conv, {}) - {id}],
        buffers := Touched(st, conv))
  }

  // ----- the merge -----------------------------------------------------------------

  predicate Visible(mk: Marks, m: Message) { m.id !in Lookup(mk.hidden, m.conversationId, {}) }

  /** A mark counts over a copy that was never edited, or edited earlier than the mark says. */
  predicate EditMarkIsNewer(mk: Marks, m: Message) {
    var marks := Lookup(mk.edited, m.conversationId, map[]);
    m.id in marks && (m.editedAt.None? || Less(m.editedAt.value, marks[m.id].editedAt))
  }

  function EditApplied(mk: Marks, m: Message): Message {
    if !EditMarkIsNewer(mk, m) then m
    else
      var mark := Lookup(mk.edited, m.conversationId, map[])[m.id];
      m.(body := Some(mark.body), editedAt := Some(mark.editedAt))
  }

  /** The empty string counts as no deletion time. */
  predicate Set(o: Option<string>) { o.Some? && o.value != "" }

  function DeleteApplied(mk: Marks, m: Message): Message {
    var marks := Lookup(mk.deleted, m.conversationId, map[]);
    if Set(m.deletedAt) || m.id !in marks || marks[m.id] == "" then m
    else m.(deletedAt := Some(marks[m.id]), body := None, media := None)
  }

  function Marked(mk: Marks, m: Message): Message { DeleteApplied(mk, EditApplied(mk, m)) }

  predicate Before(a: Message, b: Message) {
    if a.createdAt != b.createdAt then Less(a.createdAt, b.createdAt) else Less(a.id, b.id)
  }

  /** A Map's values, each key's last value at its first place. */
  function ById(ms: seq<Message>): map<string, Message> {
    if ms == [] then map[] else ById(ms[..|ms|-1])[ms[|ms|-1].id := ms[|ms|-1]]
  }

  function KeysInOrder(ms: seq<Message>): (keys: seq<string>)
    ensures forall k :: k in keys <==> k in ById(ms)
    ensures forall i, j | 0 <= i < j < |keys| :: keys[i] != keys[j]
  {
    if ms == [] then []
    else var keys := KeysInOrder(ms[..|ms|-1]); if ms[|ms|-1].id in keys then keys else keys + [ms[|ms|-1].id]
  }

  function Shown(mk: Marks, byId: map<string, Message>, keys: seq<string>): seq<Message>
    requires forall k | k in keys :: k in byId
  {
    if keys == [] then []
    else
      var (front, m) := (Shown(mk, byId, keys[..|keys|-1]), byId[keys[|keys|-1]]);
      if Visible(mk, m) then front + [Marked(mk, m)] else front
  }

  function Insert(sorted: seq<Message>, m: Message): seq<Message> {
    if sorted == [] || !Before(m, sorted[|sorted|-1]) then sorted + [m]
    else Insert(sorted[..|sorted|-1], m) + [sorted[|sorted|-1]]
  }

  function Sorted(ms: seq<Message>): seq<Message> {
    if ms == [] then [] else Insert(Sorted(ms[..|ms|-1]), ms[|ms|-1])
  }

  function FullMerge(mk: Marks, history: seq<Message>, live: seq<Message>): seq<Message> {
    Sorted(Shown(mk, ById(history + live), KeysInOrder(history + live)))
  }

  predicate NothingToApply(mk: Marks) {
    mk.deleted == map[] && mk.hidden == map[] && mk.edited == map[]
  }

  function MergeMessages(mk: Marks, history: seq<Message>, live: seq<Message>): seq<Message> {
    if live == [] && NothingToApply(mk) then history else FullMerge(mk, history, live)
  }

  // ----- the module's maps, changed in place ----------------------------------------

  class LiveMessages {
    var buffers: map<string, seq<Message>>
    var deletedMarks: map<string, map<string, string>>
    var hiddenIds: map<string, set<string>>
    var exitingIds: map<string, set<string>>
    var editedMarks: map<string, map<string, Edit>>

    function AllMarks(): Marks
      reads this
    {
      Marks(deletedMarks, hiddenIds, editedMarks)
    }

    function View(): Store
      reads this
    {
      Store(buffers, exitingIds, AllMarks())
    }

    constructor ()
      ensures View() == Store(map[], map[], Marks(map[], map[], map[]))
    {
      buffers, deletedMarks, hiddenIds, exitingIds, editedMarks := map[], map[], map[], map[], map[];
    }

    method PushLiveMessage(msg: Message)
      modifies this`buffers
      ensures View() == Push(old(View()), msg)
    {
      var current := Lookup(buffers, msg.conversationId, []);
      var i := 0;
      while i < |current|
        invariant 0 <= i <= |current| && forall j | 0 <= j < i :: current[j].id != msg.id
      {
        if current[i].id == msg.id { return; }
        i := i + 1;
      }
      buffers := buffers[msg.conversationId := LastOnes(current + [msg])];
    }

    method PushLiveMessages(messages: seq<Message>)
      modifies this`buffers
      ensures View() == PushAll(old(View()), messages)
    {
      var i := 0;
      while i < |messages|
        invariant 0 <= i <= |messages| && View() == PushAll(old(View()), messages[..i])
      {
        assert messages[..i+1][..i] == messages[..i];
        PushLiveMessage(messages[i]);
        i := i + 1;
      }
      assert messages[..i] == messages;
    }

    method MarkLiveMessageEdited(conversationId: string, messageId: string, body: string, editedAt: string)
      modifies this`editedMarks, this`buffers
      ensures View() == MarkEdited(old(View()), conversationId, messageId, Edit(body, editedAt))
    {
      var marks := Lookup(editedMarks, conversationId, map[]);
      marks := marks[messageId := Edit(body, editedAt)];
      editedMarks := editedMarks[conversationId := marks];
      buffers := buffers[conversationId := Lookup(buffers, conversationId, [])];
    }

    method MarkLiveMessageDeleted(conversationId: string, messageId: string, deletedAt: string)
      modifies this`deletedMarks, this`buffers
      ensures View() == MarkDeleted(old(View()), conversationId, messageId, deletedAt)
    {
      var marks := Lookup(deletedMarks, conversationId, map[]);
      marks := marks[messageId := deletedAt];
      deletedMarks := deletedMarks[conversationId := marks];
      buffers := buffers[conversationId := Lookup(buffers, conversationId, [])];
    }

    /** Starts the exit; `armed` says whether the timer that calls CommitLiveHidden was set. */
    method MarkLiveMessageHidden(conversationId: string, messageId: string) returns (armed: bool)
      modifies this`exitingIds
      ensures armed == (messageId !in Lookup(old(exitingIds), conversationId, {}))
      ensures View() == if armed then MarkHidden(old(View()), conversationId, messageId) else old(View())
    {
      var exiting := Lookup(exitingIds, conversationId, {});
      if messageId in exiting { return false; }
      exitingIds := exitingIds[conversationId := exiting + {messageId}];
      return true;
    }

    method CommitLiveHidden(conversationId: string, messageId: string)
      modifies this
      ensures View() == CommitHidden(old(View()), conversationId, messageId)
    {
      hiddenIds := hiddenIds[conversationId := Lookup(hiddenIds, conversationId, {}) + {messageId}];
      exitingIds := exitingIds[conversationId := Lookup(exitingIds, conversationId, {}) - {messageId}];
      buffers := buffers[conversationId := Lookup(buffers, conversationId, [])];
    }

    method ClearLiveMessages()
      modifies this
      ensures View() == Store(map[], map[], Marks(map[], map[], map[]))
    {
      buffers, deletedMarks, hiddenIds, exitingIds, editedMarks := map[], map[], map[], map[], map[];
    }

    method MergeWithHistory(history: seq<Message>, live: seq<Message>) returns (merged: seq<Message>)
      ensures merged == MergeMessages(AllMarks(), history, live)
    {
      if live == [] && deletedMarks == map[] && hiddenIds == map[] && editedMarks == map[] {
        return history;
      }
      var byId, keys := IndexById(history + live);
      var shown := ShowMarked(byId, keys);
      merged := Sorted(shown);
    }

    /** The Map of the merge, with the order its keys were first set in. */
    static method IndexById(all: seq<Message>) returns (byId: map<string, Message>, keys: seq<string>)
      ensures byId == ById(all) && keys == KeysInOrder(all)
    {
      byId, keys := map[], [];
      for i := 0 to |all|
        invariant byId == ById(all[..i]) && keys == KeysInOrder(all[..i])
      {
        assert all[..i+1][..i] == all[..i];
        if all[i].id !in byId { keys := keys + [all[i].id]; }
        byId := byId[all[i].id := all[i]];
      }
      assert all[..|all|] == all;
    }

    method ShowMarked(byId: map<string, Message>, keys: seq<string>) returns (shown: seq<Message>)
      requires forall k | k in keys :: k in byId
      ensures shown == Shown(AllMarks(), byId, keys)
    {
      shown := [];
      for i := 0 to |keys|
        invariant shown == Shown(AllMarks(), byId, keys[..i])
      {
        assert keys[..i+1][..i] == keys[..i];
        var msg := byId[keys[i]];
        if Visible(AllMarks(), msg) { shown := shown + [Marked(AllMarks(), msg)]; }
      }
      assert keys[..|keys|] == keys;
    }
  }
}
