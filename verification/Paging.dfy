/**
 Keyset pages over (time, id) and the printed cursors that join them. A table lists the keys of the rows
 a viewer may see, newest first; times are microseconds, and a cursor prints only their milliseconds.
 */
module Paging {
  import opened Common
  import opened Strings

  datatype Key = Key(time: int, id: string) {
    /** The row comparison of SQL. */
    predicate Below(k: Key) { time < k.time || (time == k.time && Less(id, k.id)) }

    /** The key a cursor printed from this row names. */
    function Truncated(): Key { Key(Millis(time) * 1000, id) }
  }

  function Millis(time: int): int { time / 1000 }

  ghost predicate NewestFirst(table: seq<Key>) {
    forall i, j | 0 <= i < j < |table| :: table[j].Below(table[i])
  }

  lemma BelowIsStrictTotal(a: Key, b: Key, c: Key)
    ensures !a.Below(a)
    ensures a.Below(b) && b.Below(c) ==> a.Below(c)
    ensures a == b || a.Below(b) || b.Below(a)
    ensures a.Below(b) ==> !b.Below(a)
  {
    LessIsStrict(a.id);
    LessIsTotal(a.id, b.id);
    if Less(a.id, b.id) && Less(b.id, c.id) { LessIsTransitive(a.id, b.id, c.id); }
    if Less(a.id, b.id) && Less(b.id, a.id) { LessIsTransitive(a.id, b.id, a.id); }
  }

  // ----- cursors -------------------------------------------------------------------

  const MAX_SAFE_INTEGER := 0x1F_FFFF_FFFF_FFFF

  function Digit(d: nat): char
    requires d < 10
  {
    ['0', '1', '2', '3', '4', '5', '6', '7', '8', '9'][d]
  }

  function Decimal(n: nat): (s: string)
    ensures s != [] && '.' !in s
  {
    if n < 10 then [Digit(n)] else Decimal(n / 10) + [Digit(n % 10)]
  }

  function Printed(n: int): string { if n < 0 then "-" + Decimal(-n) else Decimal(n) }

  function FormatCursor(row: Key): string { Printed(Millis(row.time)) + "." + row.id }

  datatype Parsed = NoCursor | Invalid | Cursor(key: Key)

  /** JavaScript's `Number`, restricted to safe integers; all that matters is that it reads decimals. */
  type Reader = string -> Option<int>

  ghost predicate ReadsDecimals(number: Reader) {
    forall n: nat | n <= MAX_SAFE_INTEGER :: number(Decimal(n)) == Some(n)
  }

  function IndexOf(s: string, c: char): (i: int)
    ensures -1 <= i < |s|
    ensures i == -1 ==> c !in s
    ensures i >= 0 ==> s[i] == c && c !in s[..i]
  {
    if s == [] then -1
    else if s[0] == c then 0
    else var i := IndexOf(s[1..], c);
      assert i >= 0 ==> s[..i+1] == [s[0]] + s[1..][..i];
      if i < 0 then -1 else i + 1
  }

  function ParseCursor(raw: string, number: Reader): Parsed {
    if raw == "" then NoCursor
    else
      var separator := IndexOf(raw, '.');
      if separator <= 0 then Invalid
      else
        var (millis, id) := (number(raw[..separator]), raw[separator+1..]);
        if millis.None? || millis.value > MAX_SAFE_INTEGER || millis.value <= 0 || id == "" then Invalid
        else Cursor(Key(millis.value * 1000, id))
  }

  predicate Printable(row: Key) { 0 < Millis(row.time) <= MAX_SAFE_INTEGER && row.id != "" }

  /** The printed form reads back as the truncated key exactly for a positive safe time and a non-empty id. */
  lemma CursorRoundTrip(row: Key, number: Reader)
    requires ReadsDecimals(number) && row.time >= 0
    ensures (ParseCursor(FormatCursor(row), number) == Cursor(row.Truncated())) <==> Printable(row)
  {
    var digits := Printed(Millis(row.time));
    FirstDot(digits, row.id);
    assert FormatCursor(row)[..|digits|] == digits && FormatCursor(row)[|digits|+1..] == row.id;
  }

  lemma {:induction false} FirstDot(digits: string, id: string)
    requires '.' !in digits
    ensures IndexOf(digits + "." + id, '.') == |digits|
  {
    var raw := digits + "." + id;
    if digits == [] {
      assert raw[0] == '.';
    } else {
      assert raw[0] == digits[0] && raw[1..] == digits[1..] + "." + id;
      FirstDot(digits[1..], id);
    }
  }

  /** What a cursor text stands for: a positive safe number of milliseconds before its first dot, an id after it. */
  ghost predicate Names(raw: string, number: Reader, digits: string, id: string, key: Key) {
    && '.' !in digits && digits != "" && id != "" && raw == digits + "." + id
    && number(digits).Some? && 0 < number(digits).value <= MAX_SAFE_INTEGER && key == Key(number(digits).value * 1000, id)
  }

  /** Only the empty text asks for the first page, and any other that names no key is refused, never taken for it. */
  lemma CursorIsReadExactly(raw: string, number: Reader, key: Key)
    ensures ParseCursor(raw, number).NoCursor? <==> raw == ""
    ensures ParseCursor(raw, number) == Cursor(key) <==> exists digits, id :: Names(raw, number, digits, id, key)
  {
    var k := IndexOf(raw, '.');
    if k > 0 { assert raw == raw[..k] + "." + raw[k+1..]; }
    if ParseCursor(raw, number) == Cursor(key) { assert Names(raw, number, raw[..k], raw[k+1..], key); }
    forall digits, id | Names(raw, number, digits, id, key) ensures ParseCursor(raw, number) == Cursor(key) {
      FirstDot(digits, id);
      assert raw[..|digits|] == digits && raw[|digits|+1..] == id;
    }
  }

  // ----- one page ------------------------------------------------------------------

  function Selected(table: seq<Key>, before: Option<Key>): (rows: seq<Key>)
    ensures forall r :: r in rows <==> r in table && (before.None? || r.Below(before.value))
    ensures |rows| <= |table|
  {
    if table == [] then []
    else
      var rest := Selected(table[1..], before);
      if before.None? || table[0].Below(before.value) then [table[0]] + rest else rest
  }

  datatype Page = Page(rows: seq<Key>, nextCursor: Option<string>, hasMore: bool)

  /** listMessages and listCallHistory for a limit of at least one, before the former turns its rows oldest first. */
  function ListPage(table: seq<Key>, before: Option<Key>, limit: nat): Page {
    var rows := Take(Selected(table, before), limit + 1);
    var hasMore := |rows| > limit;
    var page := if hasMore then rows[..limit] else rows;
    Page(page, if hasMore && page != [] then Some(FormatCursor(page[|page|-1])) else None, hasMore)
  }

  // ----- the walk ------------------------------------------------------------------

  /** How many rows a page that starts at `before` skips. */
  function Skipped(table: seq<Key>, before: Option<Key>): (n: nat)
    ensures n <= |table|
  {
    |table| - |Selected(table, before)|
  }

  lemma {:induction false} SelectedIsSuffix(table: seq<Key>, before: Option<Key>)
    requires NewestFirst(table)
    ensures Selected(table, before) == table[Skipped(table, before)..]
  {
    if table != [] {
      assert NewestFirst(table[1..]);
      SelectedIsSuffix(table[1..], before);
      if before.None? || table[0].Below(before.value) {
        forall r | r in table[1..] ensures before.None? || r.Below(before.value) {
          if before.Some? { BelowIsStrictTotal(r, table[0], before.value); }
        }
        SelectsAll(table[1..], before);
      }
    }
  }

  lemma {:induction false} SelectsAll(table: seq<Key>, before: Option<Key>)
    requires before.None? || forall r | r in table :: r.Below(before.value)
    ensures Selected(table, before) == table
  {
    if table != [] { SelectsAll(table[1..], before); }
  }

  lemma {:induction false} SelectsNone(table: seq<Key>, before: Key)
    requires forall r | r in table :: !r.Below(before)
    ensures Selected(table, Some(before)) == []
  {
    if table != [] { SelectsNone(table[1..], before); }
  }

  /** What the walk needs of a table: the order of the index, times and ids a cursor can print. */
  ghost predicate Listable(table: seq<Key>) {
    NewestFirst(table) && forall r | r in table :: Printable(r)
  }

  /** A page is the next `limit` rows, and says whether there are more. */
  lemma PageIsNextRows(table: seq<Key>, before: Option<Key>, limit: nat)
    requires NewestFirst(table) && limit >= 1
    ensures var (page, n) := (ListPage(table, before, limit), Skipped(table, before));
            if n + limit >= |table| then page == Page(table[n..], None, false)
            else page == Page(table[n..n+limit], Some(FormatCursor(table[n+limit-1])), true)
  {
    hide Selected, NewestFirst, FormatCursor;
    SelectedIsSuffix(table, before);
    var n := Skipped(table, before);
    if n + limit < |table| {
      assert Take(table[n..], limit + 1)[..limit] == table[n..n+limit];
    }
  }

  /** Its cursor reads back, and skips the page and every row not below the page's last one truncated. */
  lemma CursorSkipsPage(table: seq<Key>, next: nat, number: Reader)
    requires Listable(table) && ReadsDecimals(number) && 0 < next < |table|
    ensures ParseCursor(FormatCursor(table[next-1]), number) == Cursor(table[next-1].Truncated())
    ensures Skipped(table, Some(table[next-1].Truncated())) >= next
    ensures Skipped(table, Some(table[next-1].Truncated())) == next <==> table[next].Below(table[next-1].Truncated())
  {
    hide ReadsDecimals, NewestFirst;
    assert table[next-1] in table;
    CursorRoundTrip(table[next-1], number);
    CursorSkips(table, next, table[next-1].Truncated());
  }

  lemma CursorSkips(table: seq<Key>, next: nat, cursor: Key)
    requires NewestFirst(table) && 0 < next < |table|
    requires cursor.time <= table[next-1].time && cursor.id == table[next-1].id
    ensures Skipped(table, Some(cursor)) >= next
    ensures Skipped(table, Some(cursor)) == next <==> table[next].Below(cursor)
  {
    var (last, m) := (table[next-1], Skipped(table, Some(cursor)));
    SelectedIsSuffix(table, Some(cursor));
    assert m < next ==> table[m..][next-1-m] == last;
    LessIsStrict(last.id);
    assert last !in Selected(table, Some(cursor));
    assert m == next ==> table[m..][0] == table[next];
    if table[next].Below(cursor) {
      assert table[next] in table[m..];
      if m > next {
        var i :| m <= i < |table| && table[i] == table[next];
        BelowIsStrictTotal(table[next], table[next], cursor);
      }
    }
  }

  // ----- the walk ------------------------------------------------------------------

  /** The key the next request asks below; None when there is none, or when the route refuses the cursor. */
  function Next(table: seq<Key>, before: Option<Key>, limit: nat, number: Reader): Option<Key> {
    var cursor := ListPage(table, before, limit).nextCursor;
    if cursor.None? then None
    else match ParseCursor(cursor.value, number)
      case Cursor(key) => Some(key)
      case _ => None
  }

  lemma NextSkipsPage(table: seq<Key>, before: Option<Key>, limit: nat, number: Reader)
    requires Listable(table) && ReadsDecimals(number) && limit >= 1
    ensures var (n, next) := (Skipped(table, before), Next(table, before, limit, number));
            if n + limit >= |table| then next == None
            else
              && next == Some(table[n+limit-1].Truncated())
              && |table[n..]| == |Selected(table, before)| > |Selected(table, next)|
  {
    hide Selected, FormatCursor, ParseCursor, ListPage, NewestFirst;
    PageIsNextRows(table, before, limit);
    var n := Skipped(table, before);
    SelectedIsSuffix(table, before);
    if n + limit < |table| { CursorSkipsPage(table, n + limit, number); }
  }

  /** Every page from `before` on, following the cursors. */
  function Walk(table: seq<Key>, before: Option<Key>, limit: nat, number: Reader): seq<Key>
    requires Listable(table) && ReadsDecimals(number) && limit >= 1
    decreases |Selected(table, before)|
  {
    NextSkipsPage(table, before, limit, number);
    var next := Next(table, before, limit, number);
    ListPage(table, before, limit).rows + if next.None? then [] else Walk(table, next, limit, number)
  }

  lemma WalkUnfolds(table: seq<Key>, before: Option<Key>, limit: nat, number: Reader)
    requires Listable(table) && ReadsDecimals(number) && limit >= 1
    ensures var n := Skipped(table, before);
            Walk(table, before, limit, number) ==
              if n + limit >= |table| then table[n..]
              else table[n..n+limit] + Walk(table, Some(table[n+limit-1].Truncated()), limit, number)
  {
    hide ListPage, Selected, Next, FormatCursor, ReadsDecimals;
    PageIsNextRows(table, before, limit);
    NextSkipsPage(table, before, limit, number);
  }

  /** Whatever the times, the walk ends, goes down strictly, and shows rows of the table only, those past its start. */
  lemma {:induction false} WalkNeverRepeats(table: seq<Key>, before: Option<Key>, limit: nat, number: Reader)
    requires Listable(table) && ReadsDecimals(number) && limit >= 1
    ensures NewestFirst(Walk(table, before, limit, number))
    ensures forall r | r in Walk(table, before, limit, number) :: r in table[Skipped(table, before)..]
    decreases |table| - Skipped(table, before)
  {
    hide *;
    var n := Skipped(table, before);
    WalkUnfolds(table, before, limit, number);
    ListableIsNewestFirst(table);
    if n + limit < |table| {
      var cursor := Some(table[n+limit-1].Truncated());
      CursorSkipsPage(table, n + limit, number);
      WalkNeverRepeats(table, cursor, limit, number);
      RunsDown(table, n, n + limit, Skipped(table, cursor), Walk(table, cursor, limit, number));
    } else {
      RunsDown(table, n, |table|, |table|, []);
      assert table[n..|table|] + [] == table[n..];
    }
  }

  lemma ListableIsNewestFirst(table: seq<Key>)
    requires Listable(table)
    ensures NewestFirst(table) && NewestFirst([])
  {
  }

  lemma RunsDown(table: seq<Key>, n: nat, m: nat, k: nat, rest: seq<Key>)
    requires NewestFirst(table) && n <= m <= k <= |table| && NewestFirst(rest)
    requires forall r | r in rest :: r in table[k..]
    ensures NewestFirst(table[n..m] + rest)
    ensures forall r | r in table[n..m] + rest :: r in table[n..]
  {
    var page := table[n..m];
    forall x, y | x in page && y in rest ensures y.Below(x) {
      var j :| k <= j < |table| && table[j] == y;
      var i :| n <= i < m && table[i] == x;
    }
    var all := page + rest;
    forall i, j | 0 <= i < j < |all| ensures all[j].Below(all[i]) {
      if i < |page| <= j { assert page[i] in page && rest[j-|page|] in rest; }
    }
  }

  /** The cursor printed after `limit` times `k` rows loses none: the next row is below the key it names. */
  ghost predicate CutIsClean(table: seq<Key>, limit: nat, k: nat) {
    0 < k * limit < |table| ==> table[k * limit].Below(table[k * limit - 1].Truncated())
  }

  /** From a clean start the walk shows all the rest exactly when every later cut is clean. */
  lemma {:induction false} WalkFromExactly(table: seq<Key>, before: Option<Key>, limit: nat, k: nat, number: Reader)
    requires Listable(table) && ReadsDecimals(number) && limit >= 1 && Skipped(table, before) == k * limit
    ensures Walk(table, before, limit, number) == table[k * limit..] <==> forall j: nat | j > k :: CutIsClean(table, limit, j)
    decreases |table| - Skipped(table, before)
  {
    hide *;
    var (n, m) := (k * limit, (k + 1) * limit);
    NextCut(k, limit);
    WalkUnfolds(table, before, limit, number);
    if m < |table| {
      var cursor := Some(table[m-1].Truncated());
      CursorSkipsPage(table, m, number);
      CleanCutAt(table, limit, k + 1);
      if Skipped(table, cursor) == m {
        WalkFromExactly(table, cursor, limit, k + 1, number);
        SplitAt(table, n, m, Walk(table, cursor, limit, number));
      } else {
        WalkNeverRepeats(table, cursor, limit, number);
        ListableIsNewestFirst(table);
        MissesRow(table, n, m, Skipped(table, cursor), Walk(table, cursor, limit, number));
        assert !CutIsClean(table, limit, k + 1);
      }
    } else {
      forall j: nat | j > k ensures CutIsClean(table, limit, j) { PastTheEnd(table, limit, k + 1, j); }
    }
  }

  lemma NextCut(k: nat, limit: nat)
    ensures (k + 1) * limit == k * limit + limit
  {
  }

  lemma CleanCutAt(table: seq<Key>, limit: nat, k: nat)
    requires 0 < k * limit < |table|
    ensures CutIsClean(table, limit, k) <==> table[k * limit].Below(table[k * limit - 1].Truncated())
  {
  }

  lemma PastTheEnd(table: seq<Key>, limit: nat, k: nat, j: nat)
    requires k * limit >= |table| && j >= k
    ensures CutIsClean(table, limit, j)
  {
    assert j * limit == k * limit + (j - k) * limit;
  }

  lemma SplitAt(table: seq<Key>, n: nat, m: nat, rest: seq<Key>)
    requires n <= m <= |table|
    ensures table[n..m] + rest == table[n..] <==> rest == table[m..]
  {
    assert table[n..] == table[n..m] + table[m..];
    if table[n..m] + rest == table[n..] {
      assert rest == (table[n..m] + rest)[m-n..] == table[n..][m-n..] == table[m..];
    }
  }

  /** A walk that goes on past row m does not show it. */
  lemma MissesRow(table: seq<Key>, n: nat, m: nat, k: nat, rest: seq<Key>)
    requires NewestFirst(table) && n <= m < k <= |table| && forall r | r in rest :: r in table[k..]
    ensures table[n..m] + rest != table[n..]
  {
    SplitAt(table, n, m, rest);
    RowIsAboveRest(table, m, k);
    assert rest == [] || rest[0] in rest;
  }

  lemma RowIsAboveRest(table: seq<Key>, m: nat, k: nat)
    requires NewestFirst(table) && m < k <= |table|
    ensures table[m] !in table[k..]
  {
    BelowIsStrictTotal(table[m], table[m], table[m]);
  }

  /**
   For each page size: the walk shows every row exactly when the row after each full page
   is below the key that page's cursor prints, that is, when it does not hide in the
   microseconds the cursor drops.
   */
  lemma WalkIsCompleteExactly(table: seq<Key>, limit: nat, number: Reader)
    requires Listable(table) && ReadsDecimals(number) && limit >= 1
    ensures Walk(table, None, limit, number) == table <==> forall k: nat | k > 0 :: CutIsClean(table, limit, k)
  {
    hide *;
    SelectsAll(table, None);
    assert Skipped(table, None) == 0 * limit by { NothingSkipped(table); }
    WalkFromExactly(table, None, limit, 0, number);
    assert table[0 * limit..] == table;
  }

  lemma NothingSkipped(table: seq<Key>)
    ensures Skipped(table, None) == 0
  {
    SelectsAll(table, None);
  }

  /** Whole milliseconds make every cut clean, so every page size walks every row once. */
  lemma WholeMillisecondsWalkCompletely(table: seq<Key>, limit: nat, number: Reader)
    requires Listable(table) && ReadsDecimals(number) && limit >= 1
    requires forall r | r in table :: r.time % 1000 == 0
    ensures Walk(table, None, limit, number) == table
  {
    hide Walk, ReadsDecimals;
    WalkIsCompleteExactly(table, limit, number);
    forall k: nat | k > 0 ensures CutIsClean(table, limit, k) {
      if 0 < k * limit < |table| {
        var above := table[k * limit - 1];
        assert above in table && above.Truncated() == above;
      }
    }
  }

  /** Two rows of one millisecond, as `now()` gives them: pages of one never show the second. */
  lemma SubMillisecondRowIsSkipped(number: Reader) returns (table: seq<Key>)
    requires ReadsDecimals(number)
    ensures Listable(table) && |table| == 2
    ensures Walk(table, None, 1, number) == table[..1]
  {
    table := [Key(1700000000000500, "b"), Key(1700000000000400, "a")];
    hide Walk, ReadsDecimals;
    var cursor := Some(table[0].Truncated());
    SelectsAll(table, None);
    WalkUnfolds(table, None, 1, number);
    WalkUnfolds(table, cursor, 1, number);
    SelectsNone(table, cursor.value);
  }

  // ----- the reconnect backfill ----------------------------------------------------

  function Above(table: seq<Key>, after: Key): (rows: seq<Key>)
    ensures forall r :: r in rows <==> r in table && after.Below(r)
  {
    if table == [] then []
    else (if after.Below(table[|table|-1]) then [table[|table|-1]] else []) + Above(table[..|table|-1], after)
  }

  const BACKFILL_MAX: nat := 200

  /** The rows above the cursor, oldest first. */
  function ListAfter(table: seq<Key>, after: Key, limit: nat): seq<Key> {
    Take(Above(table, after), Min(limit, BACKFILL_MAX))
  }

  ghost predicate OldestFirst(rows: seq<Key>) {
    forall i, j | 0 <= i < j < |rows| :: rows[i].Below(rows[j])
  }

  lemma {:induction false} AboveIsAscending(table: seq<Key>, after: Key)
    requires NewestFirst(table)
    ensures OldestFirst(Above(table, after))
  {
    if table != [] {
      var (front, last) := (table[..|table|-1], table[|table|-1]);
      AboveIsAscending(front, after);
      var rest := Above(front, after);
      forall r | r in rest ensures last.Below(r) {
        var i :| 0 <= i < |front| && front[i] == r;
        assert table[|table|-1].Below(table[i]);
      }
      var all := (if after.Below(last) then [last] else []) + rest;
      assert all == if after.Below(last) then [last] + rest else rest;
    }
  }

  /**
   Whatever the cursor dropped, a backfill page is the ascending prefix of rows that
   include everything newer than the anchor; a page under its limit is all of them.
   */
  lemma BackfillIsPrefixOfEverythingNewer(table: seq<Key>, anchor: Key, limit: nat)
    requires NewestFirst(table)
    ensures var rows := ListAfter(table, anchor.Truncated(), limit);
            && OldestFirst(rows)
            && (forall r | r in rows :: r in table && anchor.Truncated().Below(r))
            && (forall r, s | r in rows && s in table && anchor.Below(s) && s !in rows :: r.Below(s))
            && |rows| <= Min(limit, 200)
            && (|rows| < Min(limit, BACKFILL_MAX) ==> forall r | r in table && anchor.Below(r) :: r in rows)
  {
    var cursor := anchor.Truncated();
    var (all, rows) := (Above(table, cursor), ListAfter(table, cursor, limit));
    AboveIsAscending(table, cursor);
    forall s | s in table && anchor.Below(s) ensures s in all { AnchorCoversTruncation(anchor, s); }
    assert all == rows + all[|rows|..];
    forall r, s | r in rows && s in all && s !in rows ensures r.Below(s) {
      var i :| 0 <= i < |rows| && rows[i] == r;
      var j :| |rows| <= j < |all| && all[j] == s;
    }
  }

  lemma AnchorCoversTruncation(anchor: Key, s: Key)
    requires anchor.Below(s)
    ensures anchor.Truncated().Below(s)
  {
  }
}
