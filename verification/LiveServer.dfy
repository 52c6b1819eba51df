/** That what a browser shows is what the server has, however old the copies it merges are. */
module LiveServer {
  import opened Common
  import opened Strings
  import opened LiveStore
  import opened LiveMerge

  /** A message from the first copy of it on. */
  datatype Life = Life(born: Message, changes: seq<Change>)

  function Current(life: Life): Message { AfterChanges(life.born, life.changes) }

  /** The last edit the server accepted, and so announced. */
  function LastEdit(m: Message, changes: seq<Change>): Option<Edit> {
    if changes == [] then None
    else
      var (front, last) := (changes[..|changes|-1], changes[|changes|-1]);
      if last.Edits? && !Set(AfterChanges(m, front).deletedAt) then Some(Edit(last.body, last.at)) else LastEdit(m, front)
  }

  function LastDelete(changes: seq<Change>): Option<string> {
    if changes == [] then None
    else
      var last := changes[|changes|-1];
      if last.Deletes? then Some(last.at) else LastDelete(changes[..|changes|-1])
  }

  /** Each edit is dated later than those before it; and the message is deleted once at most. */
  ghost predicate RunsItsCourse(life: Life) {
    && (forall i, j | 0 <= i < j < |life.changes| && life.changes[i].Edits? && life.changes[j].Edits? ::
          Less(life.changes[i].at, life.changes[j].at))
    && (life.born.editedAt.Some? ==> forall i | 0 <= i < |life.changes| && life.changes[i].Edits? ::
          Less(life.born.editedAt.value, life.changes[i].at))
    && (forall i, j | 0 <= i < j < |life.changes| :: !(life.changes[i].Deletes? && life.changes[j].Deletes?))
    && (forall i | 0 <= i < |life.changes| && life.changes[i].Deletes? :: life.changes[i].at != "" && life.born.deletedAt.None?)
    && (life.born.deletedAt.Some? ==> Set(life.born.deletedAt))
  }

  /** The browser has heard the last edit and the delete, if there were any. */
  ghost predicate HasHeard(mk: Marks, life: Life) {
    var (m, edits) := (life.born, Lookup(mk.edited, life.born.conversationId, map[]));
    var deletes := Lookup(mk.deleted, m.conversationId, map[]);
    && (match LastEdit(m, life.changes)
        case Some(edit) => m.id in edits && edits[m.id] == edit
        case None => m.id in edits ==> m.editedAt.Some? && !Less(m.editedAt.value, edits[m.id].editedAt))
    && (match LastDelete(life.changes)
        case Some(at) => m.id in deletes && deletes[m.id] == at
        case None => m.id in deletes ==> m.deletedAt.Some?)
  }

  /** What the changes come to, by the last edit and the delete. */
  lemma {:induction false} ChangesComeTo(m: Message, changes: seq<Change>)
    requires RunsItsCourse(Life(m, changes))
    ensures var (copy, edit, gone) := (AfterChanges(m, changes), LastEdit(m, changes), LastDelete(changes));
            && copy.editedAt == (if edit.Some? then Some(edit.value.editedAt) else m.editedAt)
            && copy.deletedAt == (if gone.Some? then gone else m.deletedAt)
            && copy == m.(editedAt := copy.editedAt, deletedAt := copy.deletedAt,
                          body := if gone.Some? then None else if edit.Some? then Some(edit.value.body) else m.body,
                          media := if gone.Some? then None else m.media)
            && (gone.Some? ==> Set(gone) && m.deletedAt.None?) && (m.deletedAt.Some? ==> Set(m.deletedAt))
            && (Set(m.deletedAt) ==> edit.None?)
  {
    if changes != [] {
      var (front, last) := (changes[..|changes|-1], changes[|changes|-1]);
      FrontRuns(m, changes);
      ChangesComeTo(m, front);
      if last.Deletes? { DeleteIsOne(m, changes); }
    } else {
      assert AfterChanges(m, changes) == m;
    }
  }

  lemma FrontRuns(m: Message, changes: seq<Change>)
    requires changes != [] && RunsItsCourse(Life(m, changes))
    ensures RunsItsCourse(Life(m, changes[..|changes|-1]))
  {
  }

  lemma DeleteIsOne(m: Message, changes: seq<Change>)
    requires changes != [] && RunsItsCourse(Life(m, changes)) && changes[|changes|-1].Deletes?
    ensures LastDelete(changes[..|changes|-1]).None? && m.deletedAt.None?
  {
    NoDelete(changes[..|changes|-1]);
  }

  lemma {:induction false} NoDelete(changes: seq<Change>)
    requires forall i | 0 <= i < |changes| :: !changes[i].Deletes?
    ensures LastDelete(changes).None?
  {
    if changes != [] { NoDelete(changes[..|changes|-1]); }
  }

  /** From any earlier copy on, the last edit is the same or dated later. */
  lemma {:induction false} EditsMoveOn(m: Message, changes: seq<Change>, k: nat)
    requires RunsItsCourse(Life(m, changes)) && k <= |changes|
    ensures var (before, after) := (LastEdit(m, changes[..k]), LastEdit(m, changes));
            || after == before
            || (after.Some? && !Set(AfterChanges(m, changes[..k]).deletedAt)
                && (if before.Some? then Less(before.value.editedAt, after.value.editedAt)
                    else m.editedAt.Some? ==> Less(m.editedAt.value, after.value.editedAt)))
    decreases |changes|
  {
    if k == |changes| {
      assert changes[..k] == changes;
    } else {
      var front := changes[..|changes|-1];
      assert front[..k] == changes[..k];
      FrontRuns(m, changes);
      EditsMoveOn(m, front, k);
      if changes[|front|].Edits? && !Set(AfterChanges(m, front).deletedAt) {
        if Set(AfterChanges(m, front[..k]).deletedAt) { DeletedStaysDeleted(m, front, k); }
        LastEditIsOne(m, changes[..k]);
      }
    }
  }

  lemma {:induction false} LastEditIsOne(m: Message, changes: seq<Change>)
    ensures LastEdit(m, changes).Some? ==>
              exists i :: 0 <= i < |changes| && changes[i].Edits? && changes[i].at == LastEdit(m, changes).value.editedAt
  {
    if changes != [] {
      var front := changes[..|changes|-1];
      LastEditIsOne(m, front);
      if LastEdit(m, changes) == LastEdit(m, front) && LastEdit(m, front).Some? {
        var i :| 0 <= i < |front| && front[i].Edits? && front[i].at == LastEdit(m, front).value.editedAt;
        assert changes[i] == front[i];
      } else if LastEdit(m, changes).Some? {
        assert changes[|front|].Edits?;
      }
    }
  }

  /**
   Whenever a copy was taken, with the marks laid over it it is the message as the server
   has it: text, edit time, deletion and media.
   */
  lemma MarkedIsCurrent(mk: Marks, life: Life, k: nat)
    requires RunsItsCourse(life) && HasHeard(mk, life) && k <= |life.changes|
    ensures Marked(mk, AfterChanges(life.born, life.changes[..k])) == Current(life)
  {
    hide AfterChanges, LastEdit, LastDelete, RunsItsCourse;
    var (m, changes) := (life.born, life.changes);
    assert life == Life(m, changes);
    PrefixRuns(m, changes, k);
    ChangesComeTo(m, changes[..k]);
    ChangesComeTo(m, changes);
    EditsMoveOn(m, changes, k);
    DeleteComesOnce(m, changes, k);
    if LastEdit(m, changes).Some? { LessIsStrict(LastEdit(m, changes).value.editedAt); }
  }

  lemma PrefixRuns(m: Message, changes: seq<Change>, k: nat)
    requires RunsItsCourse(Life(m, changes)) && k <= |changes|
    ensures RunsItsCourse(Life(m, changes[..k]))
  {
  }

  lemma {:induction false} DeleteComesOnce(m: Message, changes: seq<Change>, k: nat)
    requires RunsItsCourse(Life(m, changes)) && k <= |changes|
    ensures LastDelete(changes[..k]).Some? ==> LastDelete(changes) == LastDelete(changes[..k])
    decreases |changes|
  {
    if k == |changes| {
      assert changes[..k] == changes;
    } else {
      var front := changes[..|changes|-1];
      assert front[..k] == changes[..k];
      FrontRuns(m, changes);
      DeleteComesOnce(m, front, k);
      if changes[|front|].Deletes? { DeleteIsOne(m, changes); }
    }
  }

  // ----- hearing it -----------------------------------------------------------------

  /** What the socket server, or a click on "delete for me", tells the store. */
  datatype Notice =
    | Edited(conv: string, id: string, edit: Edit)
    | Deleted(conv: string, id: string, at: string)
    | Hidden(conv: string, id: string)

  function Hear(st: Store, notice: Notice): Store {
    match notice
    case Edited(conv, id, edit) => MarkEdited(st, conv, id, edit)
    case Deleted(conv, id, at) => MarkDeleted(st, conv, id, at)
    case Hidden(conv, id) => CommitHidden(MarkHidden(st, conv, id), conv, id)
  }

  function HearAll(st: Store, notices: seq<Notice>): Store {
    if notices == [] then st else Hear(HearAll(st, notices[..|notices|-1]), notices[|notices|-1])
  }

  /** The notices of one message of one kind: the last of them counts. */
  function LastEdited(notices: seq<Notice>, conv: string, id: string): Option<Edit> {
    if notices == [] then None
    else
      var last := notices[|notices|-1];
      if last.Edited? && last.conv == conv && last.id == id then Some(last.edit) else LastEdited(notices[..|notices|-1], conv, id)
  }

  function LastDeleted(notices: seq<Notice>, conv: string, id: string): Option<string> {
    if notices == [] then None
    else
      var last := notices[|notices|-1];
      if last.Deleted? && last.conv == conv && last.id == id then Some(last.at) else LastDeleted(notices[..|notices|-1], conv, id)
  }

  function MarkOf<V>(marks: map<string, map<string, V>>, conv: string, id: string): Option<V> {
    if id in Lookup(marks, conv, map[]) then Some(Lookup(marks, conv, map[])[id]) else None
  }

  /** In whatever order notices of many messages come, each message's marks are the last it was given, and no message is moved. */
  lemma {:induction false} MarksAreTheLastHeard(st: Store, notices: seq<Notice>, conv: string, id: string)
    ensures var st' := HearAll(st, notices);
            && MarkOf(st'.marks.edited, conv, id) ==
                 (if LastEdited(notices, conv, id).Some? then LastEdited(notices, conv, id) else MarkOf(st.marks.edited, conv, id))
            && MarkOf(st'.marks.deleted, conv, id) ==
                 (if LastDeleted(notices, conv, id).Some? then LastDeleted(notices, conv, id) else MarkOf(st.marks.deleted, conv, id))
            && (id in Lookup(st'.marks.hidden, conv, {}) <==> id in Lookup(st.marks.hidden, conv, {}) || Hidden(conv, id) in notices)
            && Live(st', conv) == Live(st, conv)
  {
    if notices != [] {
      var (front, last) := (notices[..|notices|-1], notices[|notices|-1]);
      assert notices == front + [last];
      MarksAreTheLastHeard(st, front, conv, id);
      hide LastEdited, LastDeleted, HearAll, Hear;
      OneMoreNotice(HearAll(st, front), last, conv, id);
    }
  }

  /** Hiding takes two halves: the message leaves the screen first, still shown, and then the list; nothing else is touched. */
  lemma HidingTakesTwoHalves(st: Store, conv: string, id: string, m: Message)
    ensures var st1 := MarkHidden(st, conv, id);
            var st2 := CommitHidden(st1, conv, id);
            && st1.marks == st.marks && st1.buffers == st.buffers
            && (m.id in Lookup(st1.exitingIds, m.conversationId, {}) <==>
                  m.id in Lookup(st.exitingIds, m.conversationId, {}) || (m.id == id && m.conversationId == conv))
            && (m.id in Lookup(st2.exitingIds, m.conversationId, {}) <==>
                  m.id in Lookup(st.exitingIds, m.conversationId, {}) && !(m.id == id && m.conversationId == conv))
            && (Visible(st2.marks, m) <==> Visible(st.marks, m) && !(m.id == id && m.conversationId == conv))
  {
  }

  lemma OneMoreNotice(st: Store, n: Notice, conv: string, id: string)
    ensures var st' := Hear(st, n);
            && MarkOf(st'.marks.edited, conv, id) ==
                 (if n.Edited? && n.conv == conv && n.id == id then Some(n.edit) else MarkOf(st.marks.edited, conv, id))
            && MarkOf(st'.marks.deleted, conv, id) ==
                 (if n.Deleted? && n.conv == conv && n.id == id then Some(n.at) else MarkOf(st.marks.deleted, conv, id))
            && (id in Lookup(st'.marks.hidden, conv, {}) <==> id in Lookup(st.marks.hidden, conv, {}) || n == Hidden(conv, id))
            && Live(st', conv) == Live(st, conv)
  {
  }

  // ----- what the merge shows --------------------------------------------------------

  /** Every copy held is one of a message's life, whose last edit and delete the browser has heard. */
  ghost predicate Taken(mk: Marks, lives: map<string, Life>, copy: Message) {
    && copy.id in lives && lives[copy.id].born.id == copy.id
    && RunsItsCourse(lives[copy.id]) && HasHeard(mk, lives[copy.id])
    && exists k: nat :: k <= |lives[copy.id].changes| && copy == AfterChanges(lives[copy.id].born, lives[copy.id].changes[..k])
  }

  lemma TakenIsCurrent(mk: Marks, lives: map<string, Life>, copy: Message)
    requires Taken(mk, lives, copy)
    ensures Marked(mk, copy) == Current(lives[copy.id]) && (Visible(mk, copy) <==> Visible(mk, Current(lives[copy.id])))
    ensures Current(lives[copy.id]).id == copy.id
  {
    hide Marked, RunsItsCourse, HasHeard;
    var life := lives[copy.id];
    var k: nat :| k <= |life.changes| && copy == AfterChanges(life.born, life.changes[..k]);
    MarkedIsCurrent(mk, life, k);
    KeepsItsName(life.born, life.changes);
    KeepsItsName(life.born, life.changes[..k]);
  }

  lemma {:induction false} KeepsItsName(m: Message, changes: seq<Change>)
    ensures AfterChanges(m, changes).id == m.id && AfterChanges(m, changes).conversationId == m.conversationId
  {
    if changes != [] { KeepsItsName(m, changes[..|changes|-1]); }
  }

  /**
   The merge shows exactly the messages held and not hidden, each as the server has it now,
   from whichever stale copies of history and buffer.
   */
  lemma MergeShowsTheServer(mk: Marks, history: seq<Message>, live: seq<Message>, lives: map<string, Life>)
    requires forall copy | copy in history + live :: copy.id in lives && Taken(mk, lives, copy)
    ensures StrictlySorted(FullMerge(mk, history, live))
    ensures forall x :: x in FullMerge(mk, history, live) <==>
              exists copy :: copy in history + live && copy.id !in Lookup(mk.hidden, copy.conversationId, {}) && x == Current(lives[copy.id])
  {
    hide Taken, Visible, Marked, FullMerge, StrictlySorted, Current;
    forall copy | copy in history + live ensures Marked(mk, copy) == Current(lives[copy.id])
      && (Visible(mk, copy) <==> Visible(mk, Current(lives[copy.id])))
    {
      TakenIsCurrent(mk, lives, copy);
    }
    MergeShowsTheUnion(mk, history, live);
    forall copy ensures Visible(mk, copy) <==> copy.id !in Lookup(mk.hidden, copy.conversationId, {}) { HiddenHere(mk, copy); }
  }

  lemma HiddenHere(mk: Marks, m: Message)
    ensures Visible(mk, m) <==> m.id !in Lookup(mk.hidden, m.conversationId, {})
  {
  }

  /** Two edits within one millisecond are not told apart: the copy between them keeps the first's text. */
  lemma SameMillisecondEditsDiverge(born: Message) returns (mk: Marks, life: Life)
    requires born.editedAt.None? && born.deletedAt.None?
    ensures life.born == born && HasHeard(mk, life) && |life.changes| == 2
    ensures Marked(mk, AfterChanges(born, life.changes[..1])).body == Some("first") && Current(life).body == Some("second")
  {
    life := Life(born, [Edits("first", "1"), Edits("second", "1")]);
    mk := Marks(map[], map[], map[born.conversationId := map[born.id := Edit("second", "1")]]);
    assert life.changes[..0] == [] && life.changes[..1][..0] == [] && life.changes[..2][..1] == life.changes[..1] && life.changes[..2] == life.changes;
    assert AfterChanges(born, life.changes[..1]) == born.(body := Some("first"), editedAt := Some("1"));
    assert AfterChanges(born, life.changes) == born.(body := Some("second"), editedAt := Some("1"));
    LessIsStrict("1");
    assert LastEdit(born, life.changes) == Some(Edit("second", "1"));
    assert LastDelete(life.changes).None?;
  }
}
