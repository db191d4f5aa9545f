/**
 The fixed-window rate limiter (server/app/abuse.py: _increment_bucket,
 enforce_rate_limit, cleanup_abuse_state).

 Times are microseconds since 1970.  Whether the database accepts the write is an
 input.  Hashing of subjects, response headers and quota locks are not modelled.
 */
module Limiter {
  import opened Arithmetic

  const SECOND: nat := 1_000_000

  datatype Key = Key(bucket: string, subject: string)

  /** The primary key of a bucket row. */
  datatype Slot = Slot(key: Key, windowStart: nat)

  datatype Bucket = Bucket(count: nat, expiresAt: nat)

  type Buckets = map<Slot, Bucket>

  /** How many requests a key may make in a window of how many seconds. */
  datatype Policy = Policy(limit: nat, window: nat)

  /**
   Admitted and Limited are accounted decisions; Unaccounted is the fail-open
   answer and Unavailable the 503 when the database refuses the write.
   */
  datatype Decision =
    | Admitted(remaining: nat, resetEpoch: nat)
    | Limited(retryAfter: nat)
    | Unaccounted
    | Unavailable

  function Epoch(now: nat): nat { now / SECOND }

  function WindowStart(now: nat, window: nat): nat
    requires window > 0
  {
    Epoch(now) - Epoch(now) % window
  }

  /** When the row of a window may be deleted. */
  function Expiry(start: nat, window: nat, retention: nat): nat {
    (start + window + retention) * SECOND
  }

  function Incremented(buckets: Buckets, slot: Slot, expiresAt: nat): Buckets {
    buckets[slot := Bucket(if slot in buckets then buckets[slot].count + 1 else 1, expiresAt)]
  }

  /** What is left after deleting the rows that have expired. */
  function Cleaned(buckets: Buckets, now: nat): Buckets {
    map slot | slot in buckets && buckets[slot].expiresAt > now :: buckets[slot]
  }

  /** The decision on the `count`-th request of a window. */
  function Verdict(policy: Policy, now: nat, count: nat): Decision
    requires policy.window > 0
  {
    var reset := WindowStart(now, policy.window) + policy.window;
    if count > policy.limit then Limited(reset - Epoch(now)) else Admitted(policy.limit - count, reset)
  }

  class RateLimiter {
    const retention: nat
    const failOpen: bool
    var buckets: Buckets

    constructor (retention: nat, failOpen: bool)
      ensures this.retention == retention && this.failOpen == failOpen && buckets == map[]
    {
      this.retention := retention;
      this.failOpen := failOpen;
      buckets := map[];
    }

    method IncrementBucket(slot: Slot, expiresAt: nat) returns (count: nat)
      modifies this
      ensures buckets == Incremented(old(buckets), slot, expiresAt)
      ensures count == buckets[slot].count
    {
      if slot in buckets {
        count := buckets[slot].count + 1;
      } else {
        count := 1;
      }
      buckets := buckets[slot := Bucket(count, expiresAt)];
    }

    method Enforce(key: Key, policy: Policy, now: nat, stored: bool) returns (d: Decision)
      requires policy.window > 0
      modifies this
      ensures (buckets, d) == Enforced(old(buckets), key, policy, now, stored, retention, failOpen)
    {
      var epoch := Epoch(now);
      var windowStart := epoch - epoch % policy.window;
      var resetEpoch := windowStart + policy.window;
      if !stored {
        if failOpen {
          return Unaccounted;
        }
        return Unavailable;
      }
      var count := IncrementBucket(Slot(key, windowStart), (resetEpoch + retention) * SECOND);
      var retryAfter := if resetEpoch - epoch >= 1 then resetEpoch - epoch else 1;
      if count > policy.limit {
        return Limited(retryAfter);
      }
      return Admitted(if policy.limit >= count then policy.limit - count else 0, resetEpoch);
    }

    method Cleanup(now: nat) returns (removed: nat)
      modifies this
      ensures buckets == Cleaned(old(buckets), now) && removed + |buckets| == |old(buckets)|
      ensures forall slot :: slot in buckets <==> slot in old(buckets) && old(buckets)[slot].expiresAt > now
    {
      var expired := set slot | slot in buckets && buckets[slot].expiresAt <= now;
      removed := |expired|;
      assert buckets.Keys - expired == Cleaned(buckets, now).Keys;
      assert expired <= buckets.Keys;
      buckets := map slot | slot in buckets && slot !in expired :: buckets[slot];
    }
  }

  function Enforced(buckets: Buckets, key: Key, policy: Policy, now: nat, stored: bool, retention: nat, failOpen: bool)
    : (Buckets, Decision)
    requires policy.window > 0
  {
    if !stored then (buckets, if failOpen then Unaccounted else Unavailable)
    else
      var start := WindowStart(now, policy.window);
      var next := Incremented(buckets, Slot(key, start), Expiry(start, policy.window, retention));
      (next, Verdict(policy, now, next[Slot(key, start)].count))
  }

  // Histories.

  datatype Op =
    | Request(key: Key, now: nat, stored: bool)
    | Cleanup(now: nat)

  /** The deployment's settings; every window is at least one second long. */
  datatype Settings = Settings(policy: Key -> Policy, retention: nat, failOpen: bool) {
    ghost predicate Valid() {
      forall key :: policy(key).window > 0
    }
  }

  ghost function After(s: Settings, ops: seq<Op>): Buckets
    requires s.Valid()
  {
    if ops == [] then map[]
    else
      var n := |ops| - 1;
      var before := After(s, ops[..n]);
      match ops[n]
      case Request(key, now, stored) =>
        Enforced(before, key, s.policy(key), now, stored, s.retention, s.failOpen).0
      case Cleanup(now) => Cleaned(before, now)
  }

  /** The decision on the request at position k. */
  ghost function DecisionAt(s: Settings, ops: seq<Op>, k: nat): Decision
    requires s.Valid() && k < |ops| && ops[k].Request?
  {
    var r := ops[k];
    Enforced(After(s, ops[..k]), r.key, s.policy(r.key), r.now, r.stored, s.retention, s.failOpen).1
  }

  predicate ClockRuns(ops: seq<Op>) {
    forall j, k :: 0 <= j < k < |ops| ==> ops[j].now <= ops[k].now
  }

  predicate Counts(op: Op, key: Key, window: nat, start: nat)
    requires window > 0
  {
    op.Request? && op.stored && op.key == key && WindowStart(op.now, window) == start
  }

  /** How many accounted requests a key has made in the window that starts at `start`. */
  function Requests(ops: seq<Op>, key: Key, window: nat, start: nat): nat
    requires window > 0
  {
    if ops == [] then 0
    else
      var n := |ops| - 1;
      Requests(ops[..n], key, window, start) + if Counts(ops[n], key, window, start) then 1 else 0
  }

  lemma {:induction false} RequestsInPast(ops: seq<Op>, key: Key, window: nat, start: nat, now: nat)
    requires window > 0 && Requests(ops, key, window, start) > 0
    requires forall op :: op in ops ==> op.now <= now
    ensures start <= WindowStart(now, window)
    decreases |ops|
  {
    var n := |ops| - 1;
    assert ops[n] in ops;
    if Counts(ops[n], key, window, start) {
      WindowStartMonotone(ops[n].now, now, window);
    } else {
      forall op | op in ops[..n] ensures op.now <= now { assert op in ops; }
      RequestsInPast(ops[..n], key, window, start, now);
    }
  }

  lemma {:induction false} WindowStartMonotone(a: nat, b: nat, window: nat)
    requires window > 0 && a <= b
    ensures WindowStart(a, window) <= WindowStart(b, window)
    ensures WindowStart(a, window) <= Epoch(a) < WindowStart(a, window) + window
    ensures WindowStart(b, window) != WindowStart(a, window) ==> WindowStart(b, window) >= WindowStart(a, window) + window
  {
    var x, y := Epoch(a), Epoch(b);
    assert WindowStart(a, window) == x / window * window;
    assert WindowStart(b, window) == y / window * window;
    QuotientIs(y, x / window, window);
    MulMonotone(x / window, y / window, window);
    MulMonotone(x / window + 1, y / window, window);
  }

  // What the rows mean.

  /**
   The row of a window counts the requests made in it; a row that was deleted, or
   never written, belongs to a window that is over or that saw no request.
   */
  ghost predicate RowCounts(s: Settings, ops: seq<Op>, key: Key, start: nat)
    requires s.Valid()
  {
    var rows, window := After(s, ops), s.policy(key).window;
    var slot, n, expiry := Slot(key, start), Requests(ops, key, window, start), Expiry(start, window, s.retention);
    if slot in rows then rows[slot] == Bucket(n, expiry)
    else n == 0 || (ops != [] && expiry <= ops[|ops| - 1].now)
  }

  lemma WindowIsOpen(now: nat, window: nat, retention: nat)
    requires window > 0
    ensures now < Expiry(WindowStart(now, window), window, retention)
  {
    WindowStartMonotone(now, now, window);
  }

  lemma {:induction false} RowsCount(s: Settings, ops: seq<Op>, key: Key, start: nat)
    requires s.Valid() && ClockRuns(ops)
    ensures RowCounts(s, ops, key, start)
    decreases |ops|
  {
    if ops != [] {
      var n := |ops| - 1;
      RowsCount(s, ops[..n], key, start);
      if ops[n].Request? {
        WindowIsOpen(ops[n].now, s.policy(ops[n].key).window, s.retention);
      }
    }
  }

  /**
   A decision depends on nothing but the number of accounted requests that the key
   has made in the current window, so no cleanup ever changes one.
   */
  lemma {:induction false} DecisionIsCount(s: Settings, ops: seq<Op>, k: nat)
    requires s.Valid() && ClockRuns(ops) && k < |ops| && ops[k].Request?
    ensures var r := ops[k];
            var p := s.policy(r.key);
            var count := Requests(ops[..k + 1], r.key, p.window, WindowStart(r.now, p.window));
            DecisionAt(s, ops, k) ==
            if r.stored then Verdict(p, r.now, count) else if s.failOpen then Unaccounted else Unavailable
  {
    var r := ops[k];
    var window := s.policy(r.key).window;
    var start := WindowStart(r.now, window);
    assert ops[..k + 1][..k] == ops[..k];
    if r.stored {
      RowsCount(s, ops[..k], r.key, start);
      WindowIsOpen(r.now, window, s.retention);
    }
  }

  /**
   What a request is told: it is admitted exactly if it is among the first `limit` accounted
   requests of its window, with the number of those that are left, and else refused until the
   end of the window.
   */
  lemma {:induction false} AnswerTells(s: Settings, ops: seq<Op>, k: nat, reset: nat)
    requires s.Valid() && ClockRuns(ops) && k < |ops| && ops[k].Request? && ops[k].stored
    requires var window := s.policy(ops[k].key).window; reset % window == 0 && reset - window <= ops[k].now / 1_000_000 < reset
    ensures var r, p := ops[k], s.policy(ops[k].key);
            var rank := Requests(ops[..k + 1], r.key, p.window, reset - p.window);
            && rank >= 1
            && DecisionAt(s, ops, k) == if rank <= p.limit then Admitted(p.limit - rank, reset) else Limited(reset - r.now / 1_000_000)
  {
    var r, p := ops[k], s.policy(ops[k].key);
    WindowEndsAt(r.now, p.window, reset);
    DecisionIsCount(s, ops, k);
    assert ops[..k + 1][..k] == ops[..k];
  }

  lemma {:induction false} WindowEndsAt(now: nat, window: nat, reset: nat)
    requires window > 0 && reset % window == 0 && reset - window <= Epoch(now) < reset
    ensures WindowStart(now, window) + window == reset
  {
    var q := reset / window;
    assert reset == q * window;
    assert (q - 1) * window == reset - window;
    QuotientIs(Epoch(now), q - 1, window);
  }

  function WithoutCleanups(ops: seq<Op>): seq<Op> {
    if ops == [] then []
    else
      var n := |ops| - 1;
      WithoutCleanups(ops[..n]) + if ops[n].Request? then [ops[n]] else []
  }

  /** The decisions on all requests, in order. */
  ghost function Decisions(s: Settings, ops: seq<Op>): seq<Decision>
    requires s.Valid()
  {
    if ops == [] then []
    else
      var n := |ops| - 1;
      Decisions(s, ops[..n]) + if ops[n].Request? then [DecisionAt(s, ops, n)] else []
  }

  lemma {:induction false} WithoutCleanupsKeeps(ops: seq<Op>, key: Key, window: nat, start: nat)
    requires window > 0 && ClockRuns(ops)
    ensures var kept := WithoutCleanups(ops);
            && Requests(kept, key, window, start) == Requests(ops, key, window, start)
            && ClockRuns(kept)
            && (kept != [] ==> ops != [] && kept[|kept| - 1].now <= ops[|ops| - 1].now)
    decreases |ops|
  {
    if ops != [] {
      var n := |ops| - 1;
      WithoutCleanupsKeeps(ops[..n], key, window, start);
      var kept := WithoutCleanups(ops[..n]);
      if ops[n].Request? {
        var all := WithoutCleanups(ops);
        assert all == kept + [ops[n]] && all[..|kept|] == kept;
        assert forall j :: 0 <= j < |kept| ==> kept[j].now <= kept[|kept| - 1].now;
      } else {
        assert WithoutCleanups(ops) == kept;
      }
    }
  }

  lemma {:induction false} LastDecisionKept(s: Settings, ops: seq<Op>, r: Op)
    requires s.Valid() && ClockRuns(ops + [r]) && r.Request?
    ensures var kept := WithoutCleanups(ops);
            DecisionAt(s, ops + [r], |ops|) == DecisionAt(s, kept + [r], |kept|)
  {
    var window, kept := s.policy(r.key).window, WithoutCleanups(ops);
    var all, rest := ops + [r], kept + [r];
    assert all[..|ops|] == ops && all[..|ops| + 1] == all;
    assert rest[..|kept|] == kept && rest[..|kept| + 1] == rest;
    WithoutCleanupsKeeps(all, r.key, window, WindowStart(r.now, window));
    DecisionIsCount(s, all, |ops|);
    DecisionIsCount(s, rest, |kept|);
  }

  /** Deleting expired rows, anywhere in a history, changes no decision. */
  lemma {:induction false} CleanupIsInvisible(s: Settings, ops: seq<Op>)
    requires s.Valid() && ClockRuns(ops)
    ensures Decisions(s, ops) == Decisions(s, WithoutCleanups(ops))
    decreases |ops|
  {
    if ops != [] {
      var n := |ops| - 1;
      var init, last := ops[..n], ops[n];
      CleanupIsInvisible(s, init);
      if last.Request? {
        var kept := WithoutCleanups(init);
        assert (kept + [last])[..|kept|] == kept && init + [last] == ops;
        LastDecisionKept(s, init, last);
      } else {
        assert WithoutCleanups(ops) == WithoutCleanups(init) && Decisions(s, ops) == Decisions(s, init);
      }
    }
  }

  /** How many requests of a key were admitted in the window that starts at `start`. */
  ghost function AdmittedIn(s: Settings, ops: seq<Op>, key: Key, start: nat): nat
    requires s.Valid()
  {
    if ops == [] then 0
    else
      var n := |ops| - 1;
      AdmittedIn(s, ops[..n], key, start) +
      if Counts(ops[n], key, s.policy(key).window, start) && DecisionAt(s, ops, n).Admitted? then 1 else 0
  }

  /** Of the requests in a window exactly the first `limit` are admitted. */
  lemma {:induction false} WindowAdmitsLimit(s: Settings, ops: seq<Op>, key: Key, start: nat)
    requires s.Valid() && ClockRuns(ops)
    ensures var n, limit := Requests(ops, key, s.policy(key).window, start), s.policy(key).limit;
            AdmittedIn(s, ops, key, start) == if n <= limit then n else limit
    decreases |ops|
  {
    if ops != [] {
      var n := |ops| - 1;
      WindowAdmitsLimit(s, ops[..n], key, start);
      assert ops[..n + 1] == ops;
      if Counts(ops[n], key, s.policy(key).window, start) {
        DecisionIsCount(s, ops, n);
      }
    }
  }

  /** How many requests of a key were admitted at times in [from, to). */
  ghost function AdmittedBetween(s: Settings, ops: seq<Op>, key: Key, from: nat, to: nat): nat
    requires s.Valid()
  {
    if ops == [] then 0
    else
      var n := |ops| - 1;
      AdmittedBetween(s, ops[..n], key, from, to) +
      if ops[n].Request? && ops[n].key == key && from <= ops[n].now < to && DecisionAt(s, ops, n).Admitted? then 1 else 0
  }

  lemma {:induction false} TwoWindows(from: nat, now: nat, window: nat)
    requires window > 0 && from <= now < from + window * SECOND
    ensures var start := WindowStart(from, window);
            WindowStart(now, window) == start || WindowStart(now, window) == start + window
  {
    var start := WindowStart(from, window);
    var q, r := Epoch(from) / window, Epoch(now) / window;
    assert start == q * window && WindowStart(now, window) == r * window;
    WindowStartMonotone(from, now, window);
    assert Epoch(now) <= Epoch(from) + window < start + 2 * window;
    assert (q + 1) * window == start + window && (q + 2) * window == start + 2 * window;
    QuotientIs(Epoch(now), q, window);
    QuotientIs(Epoch(now), q + 1, window);
  }

  lemma {:induction false} IntervalMeetsTwoWindows(s: Settings, ops: seq<Op>, key: Key, from: nat)
    requires s.Valid() && ClockRuns(ops)
    ensures var window := s.policy(key).window;
            var start := WindowStart(from, window);
            AdmittedBetween(s, ops, key, from, from + window * SECOND) <=
            AdmittedIn(s, ops, key, start) + AdmittedIn(s, ops, key, start + window)
    decreases |ops|
  {
    if ops != [] {
      var n, window := |ops| - 1, s.policy(key).window;
      IntervalMeetsTwoWindows(s, ops[..n], key, from);
      if ops[n].Request? && from <= ops[n].now < from + window * SECOND {
        TwoWindows(from, ops[n].now, window);
      }
    }
  }

  /** In any interval as long as a window, at most twice the limit is admitted. */
  lemma {:induction false} IntervalAdmitsTwiceLimit(s: Settings, ops: seq<Op>, key: Key, from: nat)
    requires s.Valid() && ClockRuns(ops)
    ensures AdmittedBetween(s, ops, key, from, from + s.policy(key).window * SECOND) <= 2 * s.policy(key).limit
  {
    var start := WindowStart(from, s.policy(key).window);
    IntervalMeetsTwoWindows(s, ops, key, from);
    WindowAdmitsLimit(s, ops, key, start);
    WindowAdmitsLimit(s, ops, key, start + s.policy(key).window);
  }

  /**
   A client that is refused and waits `retryAfter` seconds is in the next window,
   no shorter wait gets it there, and its request is then admitted.
   */
  lemma {:induction false} RetryAfterIsEnough(s: Settings, ops: seq<Op>, wait: nat)
    requires s.Valid() && ClockRuns(ops) && ops != []
    requires var last := ops[|ops| - 1];
             last.Request? && DecisionAt(s, ops, |ops| - 1) == Limited(wait) && s.policy(last.key).limit > 0
    ensures var last := ops[|ops| - 1];
            var window, later := s.policy(last.key).window, last.now + wait * SECOND;
            && wait > 0
            && WindowStart(later, window) == WindowStart(last.now, window) + window
            && WindowStart(later - SECOND, window) == WindowStart(last.now, window)
            && DecisionAt(s, ops + [Request(last.key, later, true)], |ops|).Admitted?
  {
    var last := ops[|ops| - 1];
    RefusedWait(s, ops, wait);
    AdmittedInNextWindow(s, ops, last.now + wait * SECOND);
  }

  lemma {:induction false} RefusedWait(s: Settings, ops: seq<Op>, wait: nat)
    requires s.Valid() && ClockRuns(ops) && ops != []
    requires var last := ops[|ops| - 1];
             last.Request? && DecisionAt(s, ops, |ops| - 1) == Limited(wait) && s.policy(last.key).limit > 0
    ensures var last := ops[|ops| - 1];
            var window, later := s.policy(last.key).window, last.now + wait * SECOND;
            && wait > 0
            && WindowStart(later, window) == WindowStart(last.now, window) + window
            && WindowStart(later - SECOND, window) == WindowStart(last.now, window)
  {
    var last := ops[|ops| - 1];
    var window, later := s.policy(last.key).window, last.now + wait * SECOND;
    var start := WindowStart(last.now, window);
    DecisionIsCount(s, ops, |ops| - 1);
    WindowStartMonotone(last.now, last.now, window);
    assert wait == start + window - Epoch(last.now);
    assert Epoch(later) == start + window && Epoch(later - SECOND) == start + window - 1;
    NextWindow(last.now, later, window);
    LastOfWindow(last.now, later - SECOND, window);
  }

  /** The first request of a window is admitted if the limit is not zero. */
  lemma {:induction false} AdmittedInNextWindow(s: Settings, ops: seq<Op>, later: nat)
    requires s.Valid() && ClockRuns(ops) && ops != []
    requires var last := ops[|ops| - 1];
             && last.Request? && s.policy(last.key).limit > 0 && later >= last.now
             && WindowStart(later, s.policy(last.key).window) > WindowStart(last.now, s.policy(last.key).window)
    ensures DecisionAt(s, ops + [Request(ops[|ops| - 1].key, later, true)], |ops|).Admitted?
  {
    var n := |ops| - 1;
    var last := ops[n];
    var window := s.policy(last.key).window;
    var all := ops + [Request(last.key, later, true)];
    assert all[..n + 1] == ops && all[..n + 2] == all;
    assert forall j :: 0 <= j < |ops| ==> ops[j].now <= last.now;
    if Requests(ops, last.key, window, WindowStart(later, window)) > 0 {
      RequestsInPast(ops, last.key, window, WindowStart(later, window), last.now);
    }
    DecisionIsCount(s, all, n + 1);
  }

  lemma {:induction false} NextWindow(now: nat, later: nat, window: nat)
    requires window > 0 && Epoch(later) == WindowStart(now, window) + window
    ensures WindowStart(later, window) == WindowStart(now, window) + window
  {
    var q := Epoch(now) / window;
    assert WindowStart(now, window) == q * window;
    assert Epoch(later) == (q + 1) * window;
    QuotientIs(Epoch(later), q + 1, window);
  }

  lemma LastOfWindow(now: nat, later: nat, window: nat)
    requires window > 0 && now <= later && Epoch(later) < WindowStart(now, window) + window
    ensures WindowStart(later, window) == WindowStart(now, window)
  {
    WindowStartMonotone(now, later, window);
  }
}
