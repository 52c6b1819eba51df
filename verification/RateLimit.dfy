/**
 The fixed-window limiters: the socket server's, the invite limiter with its own sweep, and the
 web app's upsert. Times are whole milliseconds, as `Date.now()` gives them.
 */
module RateLimit {
  import opened Common

  datatype Bucket = Bucket(windowStart: int, count: nat)

  type Buckets = map<string, Bucket>

  datatype Limit = Limit(windowMs: int, max: nat)

  /** In memory a window is over once it is as old as its length; in SQL, once it is older. */
  datatype Store = InMemory | InSql {
    predicate Over(b: Bucket, now: int, windowMs: int) {
      match this
      case InMemory => now - b.windowStart >= windowMs
      case InSql => b.windowStart < now - windowMs
    }

    predicate Fresh(b: Option<Bucket>, now: int, windowMs: int) {
      b.None? || Over(b.value, now, windowMs)
    }
  }

  // ----- one hit, one sweep --------------------------------------------------------

  function Hit(st: Store, b: Option<Bucket>, now: int, windowMs: int): Bucket {
    if st.Fresh(b, now, windowMs) then Bucket(now, 1) else b.value.(count := b.value.count + 1)
  }

  /** In memory a fresh window is granted without looking at `max`. */
  predicate Granted(st: Store, b: Option<Bucket>, now: int, l: Limit) {
    (st.InMemory? && st.Fresh(b, now, l.windowMs)) || Hit(st, b, now, l.windowMs).count <= l.max
  }

  function Get(m: Buckets, key: string): Option<Bucket> { if key in m then Some(m[key]) else None }

  function Swept(m: Buckets, cutoff: int): Buckets {
    map k | k in m && m[k].windowStart >= cutoff :: m[k]
  }

  const STALE_AFTER_MS := 300000

  const INVITE_WINDOW_MS := 3600000

  const INVITE_MAX: nat := 15

  /** The socket server's limiter; the invite limiter is one more of these, stale after its own window. */
  class Limiter {
    var buckets: Buckets
    const staleAfterMs: int

    constructor (staleAfterMs: int)
      ensures buckets == map[] && this.staleAfterMs == staleAfterMs
    {
      buckets := map[];
      this.staleAfterMs := staleAfterMs;
    }

    method Allow(key: string, windowMs: int, max: nat, now: int) returns (allowed: bool)
      modifies this`buckets
      ensures buckets == old(buckets)[key := Hit(InMemory, Get(old(buckets), key), now, windowMs)]
      ensures allowed == Granted(InMemory, Get(old(buckets), key), now, Limit(windowMs, max))
    {
      if key !in buckets || now - buckets[key].windowStart >= windowMs {
        buckets := buckets[key := Bucket(now, 1)];
        return true;
      }
      var bucket := buckets[key].(count := buckets[key].count + 1);
      buckets := buckets[key := bucket];
      return bucket.count <= max;
    }

    method Sweep(now: int)
      modifies this`buckets
      ensures buckets == Swept(old(buckets), now - staleAfterMs)
    {
      var cutoff := now - staleAfterMs;
      var rest := buckets.Keys;
      while rest != {}
        invariant rest <= old(buckets).Keys
        invariant buckets == map k | k in old(buckets) && (k in rest || old(buckets)[k].windowStart >= cutoff) :: old(buckets)[k]
        decreases rest
      {
        var key :| key in rest;
        rest := rest - {key};
        if buckets[key].windowStart < cutoff { buckets := buckets - {key}; }
      }
    }
  }

  /** The web app's limiter: one row per bucket key, changed by one atomic upsert. */
  class RateLimitTable {
    var rows: Buckets

    constructor ()
      ensures rows == map[]
    {
      rows := map[];
    }

    method CheckRateLimit(bucketKey: string, windowSeconds: int, max: nat, now: int) returns (allowed: bool)
      modifies this
      ensures rows == old(rows)[bucketKey := Hit(InSql, Get(old(rows), bucketKey), now, windowSeconds * 1000)]
      ensures allowed == Granted(InSql, Get(old(rows), bucketKey), now, Limit(windowSeconds * 1000, max))
    {
      var windowStartCutoff := now - windowSeconds * 1000;
      if bucketKey !in rows {
        rows := rows[bucketKey := Bucket(now, 1)];
      } else {
        var row := rows[bucketKey];
        rows := rows[bucketKey := Bucket(
          if row.windowStart < windowStartCutoff then now else row.windowStart,
          if row.windowStart < windowStartCutoff then 1 else row.count + 1)];
      }
      return rows[bucketKey].count <= max;
    }
  }

  // ----- traces --------------------------------------------------------------------

  datatype Event = Call(key: string, now: int) | SweepAt(now: int)

  /** A store, the limit each of its keys is called with, and when its sweeper thinks a bucket stale. */
  datatype Setup = Setup(st: Store, limits: string -> Limit, stale: Option<int>)

  predicate ClockRuns(trace: seq<Event>) {
    forall i, j | 0 <= i < j < |trace| :: trace[i].now <= trace[j].now
  }

  function Apply(su: Setup, m: Buckets, e: Event): Buckets {
    match e
    case Call(key, now) => m[key := Hit(su.st, Get(m, key), now, su.limits(key).windowMs)]
    case SweepAt(now) => if su.stale.Some? then Swept(m, now - su.stale.value) else m
  }

  function After(su: Setup, trace: seq<Event>): Buckets {
    if trace == [] then map[] else Apply(su, After(su, trace[..|trace|-1]), trace[|trace|-1])
  }

  /** What the i-th event of the trace is answered, if it is a call. */
  predicate Answer(su: Setup, trace: seq<Event>, i: nat)
    requires i < |trace|
  {
    && trace[i].Call?
    && Granted(su.st, Get(After(su, trace[..i]), trace[i].key), trace[i].now, su.limits(trace[i].key))
  }

  /** The i-th event is a call of `key` granted at or after `from`, within one window's length. */
  predicate Counts(su: Setup, trace: seq<Event>, key: string, from: int, i: nat)
    requires i < |trace|
  {
    Answer(su, trace, i) && trace[i].key == key && from <= trace[i].now < from + su.limits(key).windowMs
  }

  function Grants(su: Setup, trace: seq<Event>, key: string, from: int): set<nat> {
    set i: nat | i < |trace| && Counts(su, trace, key, from, i)
  }

  // ----- the bound -----------------------------------------------------------------

  /** What the bucket of a key remembers of the grants since `from`. */
  predicate Remembers(b: Option<Bucket>, grants: nat, from: int, l: Limit, now: int) {
    if b.None? then grants == 0
    else
      && b.value.count >= 1 && b.value.windowStart <= now
      && if now < from then grants == 0
         else if b.value.windowStart < from then grants <= Min(b.value.count, l.max) - 1
         else if b.value.windowStart < from + l.windowMs then grants <= l.max - 1 + Min(b.value.count, l.max)
         else grants <= 2 * l.max - 1
  }

  lemma {:induction false} GrantsAreRemembered(su: Setup, trace: seq<Event>, key: string, from: int, now: int)
    requires ClockRuns(trace) && su.stale.None? && su.limits(key).max >= 1
    requires forall e | e in trace :: e.now <= now
    ensures Remembers(Get(After(su, trace), key), |Grants(su, trace, key, from)|, from, su.limits(key), now)
  {
    if trace == [] {
      assert Grants(su, trace, key, from) == {};
    } else {
      var (n, before, e) := (|trace| - 1, trace[..|trace|-1], trace[|trace|-1]);
      GrantsAreRemembered(su, before, key, from, e.now);
      GrantsGrow(su, trace, key, from);
      if e.Call? && e.key == key {
        assert trace[..n] == before;
        CallIsRemembered(su, Get(After(su, before), key), |Grants(su, before, key, from)|, from, key, e.now);
      }
    }
  }

  lemma GrantsGrow(su: Setup, trace: seq<Event>, key: string, from: int)
    requires trace != []
    ensures |Grants(su, trace, key, from)| == |Grants(su, trace[..|trace|-1], key, from)|
              + (if Counts(su, trace, key, from, |trace| - 1) then 1 else 0)
  {
    hide Counts;
    var (n, before) := (|trace| - 1, trace[..|trace|-1]);
    forall i: nat | i < n ensures Counts(su, trace, key, from, i) == Counts(su, before, key, from, i) {
      CountsLookBack(su, trace, key, from, i);
    }
    var (g, h) := (Grants(su, before, key, from), Grants(su, trace, key, from));
    if Counts(su, trace, key, from, n) {
      assert h == g + {n} && n !in g;
    } else {
      assert h == g;
    }
  }

  lemma CountsLookBack(su: Setup, trace: seq<Event>, key: string, from: int, i: nat)
    requires i < |trace| - 1
    ensures Counts(su, trace, key, from, i) == Counts(su, trace[..|trace|-1], key, from, i)
  {
    hide After, Granted, Get;
    assert trace[..i] == trace[..|trace|-1][..i];
  }

  lemma CallIsRemembered(su: Setup, b: Option<Bucket>, grants: nat, from: int, key: string, now: int)
    requires su.limits(key).max >= 1
    requires Remembers(b, grants, from, su.limits(key), now)
    ensures var l := su.limits(key);
            var hit := Granted(su.st, b, now, l) && from <= now < from + l.windowMs;
            Remembers(Some(Hit(su.st, b, now, l.windowMs)), grants + (if hit then 1 else 0), from, l, now)
  {
  }

  // ----- no refusal without a reason -----------------------------------------------

  /** The calls of a key since `from`, granted or not. */
  function CallsSince(trace: seq<Event>, key: string, from: int): set<nat> {
    set i: nat | i < |trace| && trace[i].Call? && trace[i].key == key && trace[i].now >= from
  }

  lemma CallsGrow(trace: seq<Event>, key: string, from: int)
    requires trace != []
    ensures var (n, e, before) := (|trace| - 1, trace[|trace|-1], CallsSince(trace[..|trace|-1], key, from));
            && before <= CallsSince(trace, key, from)
            && (e.Call? && e.key == key && e.now >= from ==> CallsSince(trace, key, from) == before + {n} && n !in before)
  {
  }

  lemma {:induction false} BucketCountsCalls(su: Setup, trace: seq<Event>, key: string, now: int)
    requires ClockRuns(trace) && forall e | e in trace :: e.now <= now
    ensures var b := Get(After(su, trace), key);
            b.Some? ==> b.value.windowStart <= now && b.value.count <= |CallsSince(trace, key, b.value.windowStart)|
  {
    if trace != [] {
      var (before, e) := (trace[..|trace|-1], trace[|trace|-1]);
      BucketCountsCalls(su, before, key, e.now);
      var b' := Get(After(su, trace), key);
      assert After(su, trace) == Apply(su, After(su, before), e);
      hide CallsSince, After;
      if b'.Some? {
        CallsGrow(trace, key, b'.value.windowStart);
        Fewer(CallsSince(before, key, b'.value.windowStart), CallsSince(trace, key, b'.value.windowStart));
      }
    }
  }

  /** A call is refused only after as many calls as the limit allows came within one window's length before it. */
  lemma RefusedOnlyWhenFull(su: Setup, trace: seq<Event>, i: nat)
    requires ClockRuns(trace) && i < |trace| && trace[i].Call? && su.limits(trace[i].key).max >= 1 && !Answer(su, trace, i)
    ensures var l := su.limits(trace[i].key); |CallsSince(trace[..i], trace[i].key, trace[i].now - l.windowMs)| >= l.max
  {
    var (key, l) := (trace[i].key, su.limits(trace[i].key));
    var b := Get(After(su, trace[..i]), key);
    BucketCountsCalls(su, trace[..i], key, trace[i].now);
    var (since, all) := (CallsSince(trace[..i], key, b.value.windowStart), CallsSince(trace[..i], key, trace[i].now - l.windowMs));
    assert since <= all;
    Fewer(since, all);
  }

  lemma {:induction false} Fewer<T>(a: set<T>, b: set<T>)
    requires a <= b
    ensures |a| <= |b|
    decreases |b|
  {
    if x :| x in a { Fewer(a - {x}, b - {x}); }
  }

  // ----- the sweepers --------------------------------------------------------------

  /** What a sweep drops is always over already. */
  predicate SweepIsSafe(su: Setup, key: string) {
    su.stale.Some? ==>
      su.limits(key).windowMs <= su.stale.value + (if su.st.InMemory? then 1 else 0)
  }

  /** The swept store lacks only windows that are over. */
  lemma {:induction false} SweptBucketsAreOver(su: Setup, trace: seq<Event>, key: string, now: int)
    requires ClockRuns(trace) && SweepIsSafe(su, key)
    requires forall e | e in trace :: e.now <= now
    ensures var b := Get(After(su, trace), key);
            var kept := Get(After(su.(stale := None), trace), key);
            b == kept || (b.None? && su.st.Over(kept.value, now, su.limits(key).windowMs))
  {
    if trace != [] {
      var (before, e) := (trace[..|trace|-1], trace[|trace|-1]);
      SweptBucketsAreOver(su, before, key, e.now);
    }
  }

  /** Every answer of every trace is what it would have been had nothing been swept. */
  lemma SweeperChangesNoAnswer(su: Setup, trace: seq<Event>, i: nat)
    requires i < |trace| && ClockRuns(trace)
    requires trace[i].Call? ==> SweepIsSafe(su, trace[i].key)
    ensures Answer(su, trace, i) == Answer(su.(stale := None), trace, i)
  {
    if trace[i].Call? {
      assert ClockRuns(trace[..i]);
      SweptBucketsAreOver(su, trace[..i], trace[i].key, trace[i].now);
    }
  }

  /** `n` calls at time 0. */
  function Burst(key: string, n: nat): seq<Event> { seq(n, _ => Call(key, 0)) }

  lemma {:induction false} BurstFillsWindow(su: Setup, key: string, n: nat)
    requires su.limits(key).windowMs > 0
    ensures Get(After(su, Burst(key, n)), key) == if n == 0 then None else Some(Bucket(0, n))
  {
    if n > 0 {
      BurstFillsWindow(su, key, n - 1);
      assert Burst(key, n)[..n-1] == Burst(key, n - 1);
    }
  }

  /**
   A sweeper that drops windows still running changes an answer: after `max` calls and
   one sweep just past the stale age, the next call is granted instead of refused.
   */
  lemma UnsafeSweepChangesAnswer(su: Setup, key: string) returns (trace: seq<Event>, i: nat)
    requires !SweepIsSafe(su, key) && su.stale.value >= 0 && su.limits(key).max >= 1
    ensures ClockRuns(trace) && i < |trace| && trace[i].Call? && trace[i].key == key
    ensures Answer(su, trace, i) && !Answer(su.(stale := None), trace, i)
  {
    var (late, max) := (su.stale.value + 1, su.limits(key).max);
    var burst := Burst(key, max);
    trace := burst + [SweepAt(late), Call(key, late)];
    i := max + 1;
    assert trace[..i][..max] == burst;
    BurstFillsWindow(su, key, max);
    BurstFillsWindow(su.(stale := None), key, max);
  }

  /** So the sweeper is invisible to a key exactly when the key's window fits its stale age. */
  lemma SweeperIsInvisibleExactly(su: Setup, key: string)
    requires su.stale.Some? && su.stale.value >= 0 && su.limits(key).max >= 1
    ensures SweepIsSafe(su, key) <==>
              forall trace: seq<Event>, i: nat | i < |trace| && ClockRuns(trace) && trace[i].Call? && trace[i].key == key ::
                Answer(su, trace, i) == Answer(su.(stale := None), trace, i)
  {
    if SweepIsSafe(su, key) {
      forall trace: seq<Event>, i: nat | i < |trace| && ClockRuns(trace) && trace[i].Call? && trace[i].key == key
        ensures Answer(su, trace, i) == Answer(su.(stale := None), trace, i)
      {
        SweeperChangesNoAnswer(su, trace, i);
      }
    } else {
      var trace, i := UnsafeSweepChangesAnswer(su, key);
      assert Answer(su, trace, i) != Answer(su.(stale := None), trace, i);
    }
  }

  // ----- the theorem ---------------------------------------------------------------

  /**
   However the clock and the sweeper run, no half-open interval one window long sees
   more than 2 * max - 1 grants: one fewer than the limiter's comment allows for.
   */
  lemma GrantsPerInterval(su: Setup, trace: seq<Event>, key: string, from: int)
    requires ClockRuns(trace) && SweepIsSafe(su, key) && su.limits(key).max >= 1
    ensures |Grants(su, trace, key, from)| <= 2 * su.limits(key).max - 1
  {
    var kept := su.(stale := None);
    forall i: nat | i < |trace| ensures Counts(su, trace, key, from, i) == Counts(kept, trace, key, from, i) {
      if trace[i].Call? && trace[i].key == key { SweeperChangesNoAnswer(su, trace, i); }
    }
    assert Grants(su, trace, key, from) == Grants(kept, trace, key, from);
    if trace == [] {
      assert Grants(su, trace, key, from) == {};
    } else {
      GrantsAreRemembered(kept, trace, key, from, trace[|trace|-1].now);
    }
  }

  /** One call, the rest of the window's at its last moment, and a whole fresh window right after. */
  function Straddle(key: string, max: nat, last: int): seq<Event> {
    seq(2 * max, i => Call(key, if i == 0 then 0 else if i < max then last else last + 1))
  }

  /** The bucket after the first n calls of it. */
  function Filled(max: nat, last: int, n: nat): Option<Bucket> {
    if n == 0 then None else if n <= max then Some(Bucket(0, n)) else Some(Bucket(last + 1, n - max))
  }

  lemma StraddleHit(su: Setup, key: string, last: int, n: nat)
    requires su.limits(key).max >= 1 && 0 < n <= 2 * su.limits(key).max
    requires su.limits(key).windowMs >= 2 && last == su.limits(key).windowMs - (if su.st.InMemory? then 1 else 0)
    ensures var (max, e) := (su.limits(key).max, Straddle(key, su.limits(key).max, last)[n-1]);
            e.Call? && e.key == key && Some(Hit(su.st, Filled(max, last, n - 1), e.now, su.limits(key).windowMs)) == Filled(max, last, n)
  {
  }

  lemma OneMore(su: Setup, trace: seq<Event>, n: nat)
    requires 0 < n <= |trace|
    ensures After(su, trace[..n]) == Apply(su, After(su, trace[..n-1]), trace[n-1])
  {
    assert trace[..n][..n-1] == trace[..n-1];
  }

  lemma {:induction false} StraddleFillsTwoWindows(su: Setup, key: string, last: int, n: nat)
    requires su.stale.None? && su.limits(key).max >= 1 && n <= 2 * su.limits(key).max
    requires su.limits(key).windowMs >= 2 && last == su.limits(key).windowMs - (if su.st.InMemory? then 1 else 0)
    ensures var max := su.limits(key).max; Get(After(su, Straddle(key, max, last)[..n]), key) == Filled(max, last, n)
  {
    if n > 0 {
      var trace := Straddle(key, su.limits(key).max, last);
      StraddleFillsTwoWindows(su, key, last, n - 1);
      OneMore(su, trace, n);
      StraddleHit(su, key, last, n);
      hide After, Hit, Filled;
    }
  }

  lemma StraddleCounts(su: Setup, key: string, last: int, i: nat)
    requires su.stale.None? && su.limits(key).max >= 1 && i < 2 * su.limits(key).max
    requires su.limits(key).windowMs >= 2 && last == su.limits(key).windowMs - (if su.st.InMemory? then 1 else 0)
    ensures Counts(su, Straddle(key, su.limits(key).max, last), key, last, i) <==> i >= 1
  {
    hide After;
    StraddleFillsTwoWindows(su, key, last, i);
  }

  /** The bound is met, for every limit of at least two milliseconds. */
  lemma BoundIsMet(su: Setup, key: string) returns (trace: seq<Event>, from: int)
    requires su.stale.None? && su.limits(key).max >= 1 && su.limits(key).windowMs >= 2
    ensures ClockRuns(trace) && |Grants(su, trace, key, from)| == 2 * su.limits(key).max - 1
  {
    var max := su.limits(key).max;
    from := su.limits(key).windowMs - (if su.st.InMemory? then 1 else 0);
    trace := Straddle(key, max, from);
    hide Counts;
    forall i: nat | i < |trace| ensures Counts(su, trace, key, from, i) == (i >= 1) {
      StraddleCounts(su, key, from, i);
    }
    var all := seq(2 * max - 1, i => i + 1);
    forall i | i in Grants(su, trace, key, from) ensures i in all { assert all[i-1] == i; }
    ListLength(all, Grants(su, trace, key, from));
  }

  // ----- the limits in use ---------------------------------------------------------

  /** The longest window the socket server passes to `allow`. */
  const LONGEST_SOCKET_WINDOW_MS := 60000

  lemma SocketLimiterHolds(limits: string -> Limit, trace: seq<Event>, key: string, from: int)
    requires ClockRuns(trace) && limits(key).windowMs <= LONGEST_SOCKET_WINDOW_MS && limits(key).max >= 1
    ensures |Grants(Setup(InMemory, limits, Some(STALE_AFTER_MS)), trace, key, from)| <= 2 * limits(key).max - 1
  {
    GrantsPerInterval(Setup(InMemory, limits, Some(STALE_AFTER_MS)), trace, key, from);
  }

  function InviteLimiter(stale: int): Setup { Setup(InMemory, _ => Limit(INVITE_WINDOW_MS, INVITE_MAX), Some(stale)) }

  lemma InviteLimiterHolds(trace: seq<Event>, user: string, from: int)
    requires ClockRuns(trace)
    ensures |Grants(InviteLimiter(INVITE_WINDOW_MS), trace, user, from)| <= 29
  {
    GrantsPerInterval(InviteLimiter(INVITE_WINDOW_MS), trace, user, from);
  }

  /** And a trace that gets that many. */
  lemma InviteBoundIsMet(user: string) returns (trace: seq<Event>, from: int)
    ensures ClockRuns(trace) && |Grants(InviteLimiter(INVITE_WINDOW_MS), trace, user, from)| == 29
  {
    var su := InviteLimiter(INVITE_WINDOW_MS);
    trace, from := BoundIsMet(su.(stale := None), user);
    forall i: nat | i < |trace| ensures Counts(su, trace, user, from, i) == Counts(su.(stale := None), trace, user, from, i) {
      SweeperChangesNoAnswer(su, trace, i);
    }
    hide Counts;
    assert Grants(su, trace, user, from) == Grants(su.(stale := None), trace, user, from);
  }

  /** Why it has a sweeper of its own: the shared one would forget a user's hour. */
  lemma SharedSweeperWouldForgetInvites(user: string) returns (trace: seq<Event>, i: nat)
    ensures ClockRuns(trace) && i < |trace|
    ensures Answer(InviteLimiter(STALE_AFTER_MS), trace, i) && !Answer(InviteLimiter(STALE_AFTER_MS).(stale := None), trace, i)
  {
    trace, i := UnsafeSweepChangesAnswer(InviteLimiter(STALE_AFTER_MS), user);
  }
}
