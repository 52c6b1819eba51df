/**
 The nightly account anonymizer: single statements per due user, each keyed by that user's id,
 made to be crashed and rerun. The asset store is not part of this model.
 */
module Anonymizer {
  import opened Common

  type UserId = string

  /** sha256, cut to sixteen hex digits. */
  type Digest = string -> string

  datatype Profile = Profile(
    email: string, emailVerified: bool, name: string, firstName: string, lastName: Option<string>,
    username: string, displayUsername: string, birthDate: string, bio: Option<string>, avatarPublicId: Option<string>,
    usernameChangedAt: Option<int>, deactivatedAt: Option<int>, isOnline: bool, lastSeenAt: Option<int>, updatedAt: int)

  /** Everything stored of one user that the job may touch; `stamp` is deletion_scheduled_at. */
  datatype Rows = Rows(
    profile: Profile, stamp: Option<int>,
    sessions: set<nat>, accounts: set<nat>, links: set<nat>, privacy: set<nat>, contacts: set<nat>,
    reserved: map<string, int>)

  type Users = map<UserId, Rows>

  function AnonymizedFields(digest: Digest, id: UserId, now: int): Profile {
    var handle := "deleted." + digest(id);
    Profile(handle + "@anonymized.invalid", false, "Deleted User", "Deleted", None, handle, handle, "1970-01-01",
            None, None, None, Some(now), false, None, now)
  }

  /** A stamp holds the day its user falls due, so it needs only to have passed. */
  predicate Due(r: Rows, now: int) { r.stamp.Some? && r.stamp.value < now }

  // ----- one user ------------------------------------------------------------------

  datatype Companion = Links | Privacy | Contacts | Reserved

  /** How far a run got with a user before it died, if it died. */
  datatype Progress =
    | NoSessions
    | Committed
    | NoAccounts(gone: set<Companion>)   // the four companion deletes run together
    | Finished

  function WithoutSessions(r: Rows): Rows { r.(sessions := {}) }

  /** The commit point: matches nothing once the deletion was cancelled. */
  function Commit(digest: Digest, id: UserId, r: Rows, now: int): Rows {
    if Due(r, now) then r.(profile := AnonymizedFields(digest, id, now)) else r
  }

  function WithoutCompanions(r: Rows, gone: set<Companion>): Rows {
    r.(links := if Links in gone then {} else r.links,
       privacy := if Privacy in gone then {} else r.privacy,
       contacts := if Contacts in gone then {} else r.contacts,
       reserved := if Reserved in gone then map[] else r.reserved)
  }

  const COMPANIONS := {Links, Privacy, Contacts, Reserved}

  function ClearStamp(r: Rows): Rows { r.(stamp := None) }

  /** What a run that got as far as `p` leaves of a due user. */
  function Scrubbed(digest: Digest, id: UserId, r: Rows, now: int, p: Progress): Rows {
    var committed := Commit(digest, id, WithoutSessions(r), now);
    match p
    case NoSessions => WithoutSessions(r)
    case Committed => committed
    case NoAccounts(gone) => WithoutCompanions(committed.(accounts := {}), gone)
    case Finished => ClearStamp(WithoutCompanions(committed.(accounts := {}), COMPANIONS))
  }

  /** getSession's cancel-on-login, by a request that read its session in time. */
  function Cancel(r: Rows): Rows { ClearStamp(r) }

  /** A due user of a run that nothing kills; `cancelled` says a cancel lands before the commit. */
  function Processed(digest: Digest, id: UserId, r: Rows, now: int, cancelled: bool): Rows {
    if cancelled then Cancel(WithoutSessions(r)) else Scrubbed(digest, id, r, now, Finished)
  }

  // ----- one run -------------------------------------------------------------------

  datatype Report = Report(anonymized: nat, skipped: nat, reservedUsernamesSwept: nat, hasMore: bool)

  /** What the candidate query returns without its limit: every due user once, oldest stamp first. */
  ghost predicate IsDueList(users: Users, now: int, due: seq<UserId>) {
    && (forall u :: u in due <==> u in users && Due(users[u], now))
    && (forall i, j | 0 <= i < j < |due| :: due[i] != due[j] && users[due[i]].stamp.value <= users[due[j]].stamp.value)
  }

  function RunOver(digest: Digest, users: Users, ids: seq<UserId>, now: int, cancelled: set<UserId>): Users {
    if ids == [] then users
    else
      var (before, id) := (RunOver(digest, users, ids[..|ids|-1], now, cancelled), ids[|ids|-1]);
      if id in before then before[id := Processed(digest, id, before[id], now, id in cancelled)] else before
  }

  function KeptReservations(r: Rows, now: int): Rows {
    r.(reserved := map n | n in r.reserved && r.reserved[n] >= now :: r.reserved[n])
  }

  function Swept(users: Users, now: int): Users {
    map u | u in users :: KeptReservations(users[u], now)
  }

  function ExpiredReservations(users: Users, now: int): set<(UserId, string)> {
    set u, n | u in users && n in users[u].reserved && users[u].reserved[n] < now :: (u, n)
  }

  function RunAll(digest: Digest, users: Users, due: seq<UserId>, now: int, maxUsers: nat, cancelled: set<UserId>): Users {
    Swept(RunOver(digest, users, Take(due, maxUsers), now, cancelled), now)
  }

  function Among(ids: seq<UserId>, s: set<UserId>): nat {
    if ids == [] then 0 else Among(ids[..|ids|-1], s) + if ids[|ids|-1] in s then 1 else 0
  }

  /** The job over the user tables, statement by statement. */
  class Job {
    var users: Users
    const digest: Digest

    constructor (users: Users, digest: Digest)
      ensures this.users == users && this.digest == digest
    {
      this.users := users;
      this.digest := digest;
    }

    /** The pipeline of one due user. */
    method Scrub(id: UserId, now: int, cancelled: bool) returns (skipped: bool)
      requires id in users && Due(users[id], now)
      modifies this`users
      ensures skipped == cancelled
      ensures users == old(users)[id := Processed(digest, id, old(users)[id], now, cancelled)]
    {
      users := users[id := users[id].(sessions := {})];
      if cancelled { users := users[id := Cancel(users[id])]; }
      if !Due(users[id], now) { return true; }
      users := users[id := users[id].(profile := AnonymizedFields(digest, id, now))];
      users := users[id := users[id].(accounts := {})];
      users := users[id := users[id].(links := {}, privacy := {}, contacts := {}, reserved := map[])];
      users := users[id := users[id].(stamp := None)];
      return false;
    }

    method RunAccountAnonymizer(due: seq<UserId>, now: int, maxUsers: nat, cancelled: set<UserId>) returns (report: Report)
      requires IsDueList(users, now, due)
      modifies this`users
      ensures users == RunAll(digest, old(users), due, now, maxUsers, cancelled)
      ensures report.hasMore <==> |due| > maxUsers
      ensures report.skipped == Among(Take(due, maxUsers), cancelled)
      ensures report.anonymized + report.skipped == |Take(due, maxUsers)|
      ensures report.reservedUsernamesSwept ==
                |ExpiredReservations(RunOver(digest, old(users), Take(due, maxUsers), now, cancelled), now)|
    {
      hide Processed, IsDueList, Swept, ExpiredReservations;
      ghost var before := users;
      var selected := Take(due, maxUsers + 1);
      var batch := Take(selected, maxUsers);
      DueBatch(before, now, due, maxUsers);
      var anonymized, skipped: nat := 0, 0;
      for i := 0 to |batch|
        invariant users == RunOver(digest, before, batch[..i], now, cancelled)
        invariant skipped == Among(batch[..i], cancelled) && anonymized + skipped == i
      {
        assert batch[..i+1][..i] == batch[..i];
        RunOverClearsItsUsers(digest, before, batch[..i], now, cancelled);
        var wasSkipped := Scrub(batch[i], now, batch[i] in cancelled);
        if wasSkipped { skipped := skipped + 1; } else { anonymized := anonymized + 1; }
      }
      assert batch[..|batch|] == batch == Take(due, maxUsers);
      var gone := ExpiredReservations(users, now);
      users := Swept(users, now);
      report := Report(anonymized, skipped, |gone|, |selected| > maxUsers);
    }
  }

  ghost predicate IsBatch(users: Users, now: int, batch: seq<UserId>) {
    && (forall i | 0 <= i < |batch| :: batch[i] in users && Due(users[batch[i]], now))
    && (forall i, j | 0 <= i < j < |batch| :: batch[i] != batch[j])
  }

  lemma DueBatch(users: Users, now: int, due: seq<UserId>, maxUsers: nat)
    requires IsDueList(users, now, due)
    ensures IsBatch(users, now, Take(due, maxUsers)) && Take(Take(due, maxUsers + 1), maxUsers) == Take(due, maxUsers)
  {
    forall i | 0 <= i < |due| ensures due[i] in users && Due(users[due[i]], now) { assert due[i] in due; }
  }

  // ----- crashes, reruns and cancellations -------------------------------------------

  /** A run reaches the user, or a request that read its session in time cancels the deletion. */
  datatype Event = Try(now: int, reached: Progress) | CancelLands

  function AfterEvent(digest: Digest, id: UserId, r: Rows, e: Event): Rows {
    match e
    case Try(now, reached) => if Due(r, now) then Scrubbed(digest, id, r, now, reached) else r
    case CancelLands => Cancel(r)
  }

  /** A user over several runs, each of which gets as far as it gets, if the user is a candidate at all. */
  function AfterEvents(digest: Digest, id: UserId, r: Rows, events: seq<Event>): Rows {
    if events == [] then r
    else AfterEvent(digest, id, AfterEvents(digest, id, r, events[..|events|-1]), events[|events|-1])
  }

  /** Attempts after the due date, none of which finished. */
  ghost predicate Crashed(r: Rows, events: seq<Event>) {
    forall e | e in events :: e.Try? && Due(r, e.now) && e.reached != Finished
  }

  /** Unfinished attempts leave the user a candidate, and the next full run as if they had never been. */
  lemma {:induction false} CrashedAttemptsChangeNothing(digest: Digest, id: UserId, r: Rows, events: seq<Event>, now: int)
    requires Crashed(r, events) && Due(r, now)
    ensures AfterEvents(digest, id, r, events).stamp == r.stamp
    ensures Scrubbed(digest, id, AfterEvents(digest, id, r, events), now, Finished) == Scrubbed(digest, id, r, now, Finished)
  {
    if events != [] {
      var (front, last) := (events[..|events|-1], events[|events|-1]);
      assert last in events && forall e | e in front :: e in events;
      CrashedAttemptsChangeNothing(digest, id, r, front, now);
    }
  }

  lemma {:induction false} WithoutStampNothingChanges(digest: Digest, id: UserId, r: Rows, events: seq<Event>)
    requires r.stamp.None?
    ensures AfterEvents(digest, id, r, events) == r
  {
    if events != [] { WithoutStampNothingChanges(digest, id, r, events[..|events|-1]); }
  }

  lemma {:induction false} EventsInTurn(digest: Digest, id: UserId, r: Rows, p: seq<Event>, q: seq<Event>)
    ensures AfterEvents(digest, id, r, p + q) == AfterEvents(digest, id, AfterEvents(digest, id, r, p), q)
    decreases |q|
  {
    if q == [] {
      assert p + q == p;
    } else {
      assert (p + q)[..|p + q|-1] == p + q[..|q|-1];
      EventsInTurn(digest, id, r, p, q[..|q|-1]);
    }
  }

  /**
   Crash after any statement and rerun any number of times: the first attempt to finish
   leaves exactly what one uninterrupted run at its time would have, and nothing later changes it.
   */
  lemma RerunsEndAsOneRun(digest: Digest, id: UserId, r: Rows, before: seq<Event>, now: int, after: seq<Event>)
    requires Crashed(r, before) && Due(r, now)
    ensures AfterEvents(digest, id, r, before + [Try(now, Finished)] + after) == Scrubbed(digest, id, r, now, Finished)
    ensures Scrubbed(digest, id, r, now, Finished) == Rows(AnonymizedFields(digest, id, now), None, {}, {}, {}, {}, {}, map[])
  {
    hide Scrubbed;
    CrashedAttemptsChangeNothing(digest, id, r, before, now);
    var done := Scrubbed(digest, id, r, now, Finished);
    EventsInTurn(digest, id, r, before + [Try(now, Finished)], after);
    assert (before + [Try(now, Finished)])[..|before|] == before;
    FinishedLeavesNothing(digest, id, r, now);
    WithoutStampNothingChanges(digest, id, done, after);
  }

  /**
   What is left of a profile tells nothing of the user but the digest of the id: no name, no
   birthday, no text, no picture and no times but those of the run. Two users' profiles
   collide exactly when their digests do.
   */
  lemma ProfileTellsNothing(digest: Digest, id: UserId, other: UserId, now: int)
    ensures var (p, q) := (AnonymizedFields(digest, id, now), AnonymizedFields(digest, other, now));
            && p.lastName.None? && p.bio.None? && p.avatarPublicId.None? && p.usernameChangedAt.None? && p.lastSeenAt.None?
            && !p.emailVerified && !p.isOnline && p.deactivatedAt == Some(now) && p.updatedAt == now
            && p.(username := q.username, displayUsername := q.displayUsername, email := q.email) == q
            && p.displayUsername == p.username && p.email == p.username + "@anonymized.invalid"
            && (p.username == q.username <==> digest(id) == digest(other))
            && (p.email == q.email <==> digest(id) == digest(other))
  {
    var (p, q) := (AnonymizedFields(digest, id, now), AnonymizedFields(digest, other, now));
    PrefixesCancel("deleted.", digest(id), digest(other));
    SuffixesCancel(p.username, q.username, "@anonymized.invalid");
  }

  lemma PrefixesCancel(x: string, p: string, q: string)
    ensures x + p == x + q <==> p == q
  {
    assert (x + p)[|x|..] == p && (x + q)[|x|..] == q;
  }

  lemma SuffixesCancel(p: string, q: string, x: string)
    ensures p + x == q + x <==> p == q
  {
    if p + x == q + x {
      assert |p| == |q| && (p + x)[..|p|] == p && (q + x)[..|q|] == q;
    }
  }

  lemma FinishedLeavesNothing(digest: Digest, id: UserId, r: Rows, now: int)
    requires Due(r, now)
    ensures Scrubbed(digest, id, r, now, Finished) == Rows(AnonymizedFields(digest, id, now), None, {}, {}, {}, {}, {}, map[])
  {
  }

  /**
   A cancelled deletion is final, and has cost the user their sessions and nothing else
   exactly when no crashed attempt before it had reached the commit. Otherwise the user
   stays half-scrubbed: no later run takes them for a candidate.
   */
  lemma CancelledKeepsUserExactly(digest: Digest, id: UserId, r: Rows, before: seq<Event>, after: seq<Event>)
    requires Crashed(r, before) && r.stamp.Some? && forall now :: r.profile != AnonymizedFields(digest, id, now)
    ensures var left := AfterEvents(digest, id, r, before + [CancelLands] + after);
            && left.stamp == None
            && (left.(sessions := r.sessions) == r.(stamp := None) <==> forall e | e in before :: e.reached == NoSessions)
  {
    hide Scrubbed;
    EventsInTurn(digest, id, r, before + [CancelLands], after);
    assert (before + [CancelLands])[..|before|] == before;
    WithoutStampNothingChanges(digest, id, Cancel(AfterEvents(digest, id, r, before)), after);
    UncommittedKeepsProfile(digest, id, r, before);
  }

  lemma {:induction false} UncommittedKeepsProfile(digest: Digest, id: UserId, r: Rows, before: seq<Event>)
    requires Crashed(r, before) && r.stamp.Some? && forall now :: r.profile != AnonymizedFields(digest, id, now)
    ensures var left := AfterEvents(digest, id, r, before);
            && left.stamp == r.stamp
            && (left.(sessions := r.sessions) == r <==> forall e | e in before :: e.reached == NoSessions)
            && (left.profile == r.profile <==> forall e | e in before :: e.reached == NoSessions)
            && (left.profile == r.profile || exists now :: left.profile == AnonymizedFields(digest, id, now))
  {
    if before != [] {
      var (front, last) := (before[..|before|-1], before[|before|-1]);
      assert last in before && before == front + [last];
      UncommittedKeepsProfile(digest, id, r, front);
    }
  }

  /** Where the cancel lands after the commit of a run that survives, that run still finishes as if it had not. */
  lemma LateCancelOfSurvivingRunIsHarmless(digest: Digest, id: UserId, r: Rows, now: int, gone: set<Companion>)
    requires Due(r, now)
    ensures var half := Cancel(Scrubbed(digest, id, r, now, NoAccounts(gone)));
            ClearStamp(WithoutCompanions(half, COMPANIONS)) == Scrubbed(digest, id, r, now, Finished)
  {
  }

  // ----- draining ------------------------------------------------------------------

  function DueUsers(users: Users, now: int): set<UserId> { set u | u in users && Due(users[u], now) }

  lemma {:induction false} RunOverClearsItsUsers(digest: Digest, users: Users, ids: seq<UserId>, now: int, cancelled: set<UserId>)
    requires forall i, j | 0 <= i < j < |ids| :: ids[i] != ids[j]
    ensures RunOver(digest, users, ids, now, cancelled).Keys == users.Keys
    ensures forall u | u in users :: RunOver(digest, users, ids, now, cancelled)[u] ==
              if u in ids then Processed(digest, u, users[u], now, u in cancelled) else users[u]
  {
    if ids != [] {
      var (front, id) := (ids[..|ids|-1], ids[|ids|-1]);
      assert ids == front + [id];
      RunOverClearsItsUsers(digest, users, front, now, cancelled);
    }
  }

  /** A row with its expired username holds gone. */
  ghost predicate HoldsKept(r: Rows, r': Rows, now: int) {
    && r' == r.(reserved := r'.reserved)
    && forall n :: (n in r'.reserved <==> n in r.reserved && r.reserved[n] >= now) && (n in r'.reserved ==> r'.reserved[n] == r.reserved[n])
  }

  /**
   What one run leaves of everybody: a user in its batch nothing but the anonymized profile,
   unless a cancel landed first, which costs them their sessions; and everybody not yet
   due, or past the batch, all but their expired holds.
   */
  lemma RunLeaves(digest: Digest, users: Users, due: seq<UserId>, now: int, maxUsers: nat, cancelled: set<UserId>, u: UserId)
    requires IsDueList(users, now, due) && u in users
    ensures var (users', r, batch) := (RunAll(digest, users, due, now, maxUsers, cancelled), users[u], Take(due, maxUsers));
            && u in users'
            && (r.stamp.None? || r.stamp.value >= now || u !in batch ==> HoldsKept(r, users'[u], now))
            && (u in batch && u !in cancelled ==> users'[u] == Rows(AnonymizedFields(digest, u, now), None, {}, {}, {}, {}, {}, map[]))
            && (u in batch && u in cancelled ==> HoldsKept(r.(sessions := {}, stamp := None), users'[u], now))
            && (r.stamp.Some? && r.stamp.value < now && |due| <= maxUsers ==> u in batch)
  {
    hide RunOver;
    DueBatch(users, now, due, maxUsers);
    RunOverClearsItsUsers(digest, users, Take(due, maxUsers), now, cancelled);
    if u in Take(due, maxUsers) {
      assert Due(users[u], now);
      FinishedLeavesNothing(digest, u, users[u], now);
      hide Scrubbed;
    }
  }

  /** The users due at `since` come first in any later list. */
  lemma EarlyOnesComeFirst(users: Users, now: int, due: seq<UserId>, since: int) returns (m: nat)
    requires IsDueList(users, now, due) && since <= now
    ensures m <= |due| && Lists(due[..m], DueUsers(users, since))
  {
    m := 0;
    while m < |due| && Due(users[due[m]], since)
      invariant m <= |due| && forall i | 0 <= i < m :: Due(users[due[i]], since)
    {
      m := m + 1;
    }
    assert forall i | 0 <= i < |due| :: due[i] in due;
    assert forall i | m <= i < |due| :: !Due(users[due[i]], since);
    forall u ensures u in due[..m] <==> u in DueUsers(users, since) {
      if u in DueUsers(users, since) {
        assert u in due;
        var i :| 0 <= i < |due| && due[i] == u;
      }
    }
  }

  function Less(count: nat, k: nat): nat { if count <= k then 0 else count - k }

  /** Taking the first k off the due list takes the first k off the users due at `since`. */
  lemma PrefixDrains(users: Users, due: seq<UserId>, now: int, k: nat, after: Users, since: int)
    requires IsDueList(users, now, due) && since <= now
    requires forall u :: u in DueUsers(after, since) <==> u in DueUsers(users, since) && u !in Take(due, k)
    ensures DueUsers(after, since) <= DueUsers(users, since)
    ensures |DueUsers(after, since)| == Less(|DueUsers(users, since)|, k)
  {
    var m := EarlyOnesComeFirst(users, now, due, since);
    var (left, before) := (DueUsers(after, since), DueUsers(users, since));
    ListLength(due[..m], before);
    var rest := if m <= k then [] else due[k..m];
    assert Lists(rest, left) by {
      hide Due, DueUsers;
      RestIsListed(due, m, k, before, left);
    }
    ListLength(rest, left);
  }

  /**
   Since the oldest stamps go first, a run at any later time clears of the users due at
   `since` as many as it may take, whoever has become due in between.
   */
  lemma RunDrains(digest: Digest, users: Users, due: seq<UserId>, now: int, maxUsers: nat, cancelled: set<UserId>, since: int)
    requires IsDueList(users, now, due) && since <= now
    ensures var (left, before) := (DueUsers(RunAll(digest, users, due, now, maxUsers, cancelled), since), DueUsers(users, since));
            left <= before && |left| == Less(|before|, maxUsers)
  {
    hide Due, DueUsers, IsDueList;
    DueBatch(users, now, due, maxUsers);
    LeftAreNotInBatch(digest, users, Take(due, maxUsers), now, cancelled, since);
    PrefixDrains(users, due, now, maxUsers, RunAll(digest, users, due, now, maxUsers, cancelled), since);
  }

  lemma LeftAreNotInBatch(digest: Digest, users: Users, batch: seq<UserId>, now: int, cancelled: set<UserId>, since: int)
    requires IsBatch(users, now, batch)
    ensures forall u :: u in DueUsers(Swept(RunOver(digest, users, batch, now, cancelled), now), since)
              <==> u in DueUsers(users, since) && u !in batch
  {
    hide RunOver;
    RunOverClearsItsUsers(digest, users, batch, now, cancelled);
  }

  lemma RestIsListed(due: seq<UserId>, m: nat, maxUsers: nat, before: set<UserId>, left: set<UserId>)
    requires m <= |due| && Lists(due[..m], before)
    requires forall i, j | 0 <= i < j < |due| :: due[i] != due[j]
    requires forall u :: u in left <==> u in before && u !in Take(due, maxUsers)
    ensures Lists(if m <= maxUsers then [] else due[maxUsers..m], left)
  {
    var rest := if m <= maxUsers then [] else due[maxUsers..m];
    forall u ensures u in rest <==> u in left {
      assert u in before <==> u in due[..m];
      if u in due[..m] {
        var i :| 0 <= i < m && due[i] == u;
        if i < maxUsers { assert Take(due, maxUsers)[i] == u; } else { assert rest[i - maxUsers] == u; }
      }
      if u in rest { assert u in due[..m]; }
    }
  }

  /** What a run over `batch` leaves that dies having finished k users, the next one as far as `reached`. */
  function CrashedRun(digest: Digest, users: Users, batch: seq<UserId>, now: int, k: nat, reached: Progress, cancelled: set<UserId>): Users
    requires k <= |batch|
  {
    var before := RunOver(digest, users, batch[..k], now, cancelled);
    if k < |batch| && batch[k] in before then before[batch[k] := Scrubbed(digest, batch[k], before[batch[k]], now, reached)] else before
  }

  lemma UnfinishedKeepsStamp(digest: Digest, id: UserId, r: Rows, now: int, reached: Progress)
    requires !reached.Finished?
    ensures Scrubbed(digest, id, r, now, reached).stamp == r.stamp
  {
  }

  lemma CrashLeavesTheRest(digest: Digest, users: Users, batch: seq<UserId>, now: int, k: nat, reached: Progress, cancelled: set<UserId>, since: int)
    requires IsBatch(users, now, batch) && k <= |batch| && !reached.Finished?
    ensures forall u :: u in DueUsers(CrashedRun(digest, users, batch, now, k, reached, cancelled), since)
              <==> u in DueUsers(users, since) && u !in batch[..k]
  {
    var done := RunOver(digest, users, batch[..k], now, cancelled);
    assert IsBatch(users, now, batch[..k]);
    RunOverClearsItsUsers(digest, users, batch[..k], now, cancelled);
    assert forall u :: u in DueUsers(done, since) <==> u in DueUsers(users, since) && u !in batch[..k];
    hide RunOver, Scrubbed, Processed, IsBatch;
    if k < |batch| && batch[k] in done {
      UnfinishedKeepsStamp(digest, batch[k], done[batch[k]], now, reached);
    }
  }

  lemma CrashDrains(digest: Digest, users: Users, due: seq<UserId>, maxUsers: nat, now: int, k: nat, reached: Progress, cancelled: set<UserId>, since: int)
    requires IsDueList(users, now, due) && since <= now && k <= |Take(due, maxUsers)| && !reached.Finished?
    ensures var after := CrashedRun(digest, users, Take(due, maxUsers), now, k, reached, cancelled);
            var (left, before) := (DueUsers(after, since), DueUsers(users, since));
            left <= before && |left| == Less(|before|, k)
  {
    hide IsDueList, DueUsers, CrashedRun, IsBatch;
    var batch := Take(due, maxUsers);
    DueBatch(users, now, due, maxUsers);
    CrashLeavesTheRest(digest, users, batch, now, k, reached, cancelled, since);
    assert batch[..k] == Take(due, k);
    PrefixDrains(users, due, now, k, CrashedRun(digest, users, batch, now, k, reached, cancelled), since);
  }

  /** The job's runs, those that die among them, and whatever else the site writes in between. */
  datatype Turn =
    | Run(now: int, due: seq<UserId>, cancelled: set<UserId>)
    | Crash(now: int, due: seq<UserId>, cancelled: set<UserId>, finished: nat, reached: Progress)
    | Meanwhile(users: Users)

  /** A run reads the due list of its time, and dies within its batch if it dies. */
  ghost predicate TurnFits(users: Users, t: Turn, maxUsers: nat) {
    match t
    case Run(now, due, _) => IsDueList(users, now, due)
    case Crash(now, due, _, finished, reached) => IsDueList(users, now, due) && finished <= |Take(due, maxUsers)| && !reached.Finished?
    case Meanwhile(_) => true
  }

  ghost function AfterTurn(digest: Digest, users: Users, t: Turn, maxUsers: nat): Users
    requires TurnFits(users, t, maxUsers)
  {
    match t
    case Run(now, due, cancelled) => RunAll(digest, users, due, now, maxUsers, cancelled)
    case Crash(now, due, cancelled, finished, reached) =>
      CrashedRun(digest, users, Take(due, maxUsers), now, finished, reached, cancelled)
    case Meanwhile(users') => users'
  }

  /** None when a turn did not fit what it found. */
  ghost function AfterTurns(digest: Digest, users: Users, turns: seq<Turn>, maxUsers: nat): Option<Users> {
    if turns == [] then Some(users)
    else
      var (before, last) := (AfterTurns(digest, users, turns[..|turns|-1], maxUsers), turns[|turns|-1]);
      if before.Some? && TurnFits(before.value, last, maxUsers) then Some(AfterTurn(digest, before.value, last, maxUsers)) else None
  }

  /** Every run comes at or after `since`, and nothing in between makes anyone due at `since` who was not. */
  ghost predicate OnlyLaterDue(digest: Digest, users: Users, turns: seq<Turn>, maxUsers: nat, since: int) {
    forall k | 0 <= k < |turns| ::
      var before := AfterTurns(digest, users, turns[..k], maxUsers);
      match turns[k]
      case Meanwhile(users') => before.Some? ==> DueUsers(users', since) <= DueUsers(before.value, since)
      case _ => since <= turns[k].now
  }

  /** The users the runs could take to the end, when there are that many. */
  function Quota(turns: seq<Turn>, maxUsers: nat): nat {
    if turns == [] then 0
    else
      var last := turns[|turns|-1];
      Quota(turns[..|turns|-1], maxUsers)
        + (if last.Run? then maxUsers else if last.Crash? then last.finished else 0)
  }

  /**
   Whatever dies and whatever else is written meanwhile, the users due at some time shrink
   by what the runs could take: exactly so when nothing else is written.
   */
  lemma {:induction false} RunsDrain(digest: Digest, users: Users, turns: seq<Turn>, maxUsers: nat, since: int)
    requires AfterTurns(digest, users, turns, maxUsers).Some? && OnlyLaterDue(digest, users, turns, maxUsers, since)
    ensures var (left, before) := (DueUsers(AfterTurns(digest, users, turns, maxUsers).value, since), DueUsers(users, since));
            && left <= before && |left| <= Less(|before|, Quota(turns, maxUsers))
            && ((forall t | t in turns :: !t.Meanwhile?) ==> |left| == Less(|before|, Quota(turns, maxUsers)))
  {
    hide DueUsers;
    if turns != [] {
      var (front, last) := (turns[..|turns|-1], turns[|turns|-1]);
      FrontIsLaterDue(digest, users, turns, maxUsers, since);
      assert forall t | t in front :: t in turns;
      assert last in turns;
      hide OnlyLaterDue, TurnFits, AfterTurn;
      RunsDrain(digest, users, front, maxUsers, since);
      TurnDrains(digest, AfterTurns(digest, users, front, maxUsers).value, last, maxUsers, since);
    }
  }

  function Survivors(turns: seq<Turn>): nat {
    if turns == [] then 0 else Survivors(turns[..|turns|-1]) + if turns[|turns|-1].Run? then 1 else 0
  }

  lemma {:induction false} SurvivorsTakeTheirShare(turns: seq<Turn>, maxUsers: nat)
    ensures Survivors(turns) * maxUsers <= Quota(turns, maxUsers)
  {
    if turns != [] { SurvivorsTakeTheirShare(turns[..|turns|-1], maxUsers); }
  }

  /** So nobody stays due once as many runs survived as one run for every `maxUsers` of them takes. */
  lemma EnoughRunsDrainAll(digest: Digest, users: Users, turns: seq<Turn>, maxUsers: nat, since: int)
    requires AfterTurns(digest, users, turns, maxUsers).Some? && OnlyLaterDue(digest, users, turns, maxUsers, since)
    requires |DueUsers(users, since)| <= Survivors(turns) * maxUsers
    ensures DueUsers(AfterTurns(digest, users, turns, maxUsers).value, since) == {}
  {
    hide AfterTurns, OnlyLaterDue, DueUsers;
    RunsDrain(digest, users, turns, maxUsers, since);
    SurvivorsTakeTheirShare(turns, maxUsers);
  }

  lemma FrontIsLaterDue(digest: Digest, users: Users, turns: seq<Turn>, maxUsers: nat, since: int)
    requires turns != [] && OnlyLaterDue(digest, users, turns, maxUsers, since)
    ensures OnlyLaterDue(digest, users, turns[..|turns|-1], maxUsers, since)
    ensures var (last, before) := (turns[|turns|-1], AfterTurns(digest, users, turns[..|turns|-1], maxUsers));
            if last.Meanwhile? then before.Some? ==> DueUsers(last.users, since) <= DueUsers(before.value, since)
            else since <= last.now
  {
    hide AfterTurns, DueUsers;
    var front := turns[..|turns|-1];
    forall k | 0 <= k < |front| ensures front[..k] == turns[..k] && front[k] == turns[k] {}
  }

  lemma TurnDrains(digest: Digest, users: Users, t: Turn, maxUsers: nat, since: int)
    requires TurnFits(users, t, maxUsers)
    requires if t.Meanwhile? then DueUsers(t.users, since) <= DueUsers(users, since) else since <= t.now
    ensures var (left, before) := (DueUsers(AfterTurn(digest, users, t, maxUsers), since), DueUsers(users, since));
            && left <= before
            && (t.Run? ==> |left| == Less(|before|, maxUsers))
            && (t.Crash? ==> |left| == Less(|before|, t.finished))
            && (t.Meanwhile? ==> |left| <= |before|)
  {
    hide DueUsers, IsDueList, RunAll, CrashedRun;
    match t
    case Run(now, due, cancelled) => RunDrains(digest, users, due, now, maxUsers, cancelled, since);
    case Crash(now, due, cancelled, finished, reached) =>
      CrashDrains(digest, users, due, maxUsers, now, finished, reached, cancelled, since);
    case Meanwhile(users') => Smaller(DueUsers(users', since), DueUsers(users, since));
  }

  lemma {:induction false} Smaller<T>(a: set<T>, b: set<T>)
    requires a <= b
    ensures |a| <= |b|
    decreases a
  {
    if x :| x in a { Smaller(a - {x}, b - {x}); }
  }
}
