/**
 Throttling of progress (server/app/services.py:532-579): as long as only progress
 events schedule the updates of one activity, two updates that the provider accepts
 are at least the interval apart.
 */
module OutboxThrottle {
  import opened Arithmetic
  import opened Wrappers
  import opened Events
  import opened Ingest
  import opened Outbox
  import opened OutboxRuns
  import opened OutboxLaws

  predicate ClockRuns(ticks: seq<Tick>) {
    forall j, k :: 0 <= j < k < |ticks| ==> ticks[j].now <= ticks[k].now
  }

  predicate HasLive(w: World, runId: Uuid, device: nat) {
    exists b :: 0 <= b < |w.bindings| && GetsLive(w.bindings[b], runId) && w.bindings[b].device == device
  }

  /** If a step schedules an update for the run on the device, it is a progress event, and the interval is the given one. */
  predicate ProgressOnly(s: Settings, w: World, t: Tick, runId: Uuid, device: nat, interval: nat)
    requires Enabled(w, t)
  {
    match t.step
    case AcceptEvent(e, _) =>
      e.runId == runId && !Starts(ByEvent(e.kind)) && HasLive(w, runId, device) ==>
        e.kind == RunProgress && Interval(s, w, device) * SECOND == interval
    case RenameMachine(r, _) => r == runId ==> !HasLive(w, runId, device)
    case RegisterToken(r, d, _, _) => r == runId && d == device ==> Next(s, w, t).rows == w.rows
    case ReportActivity(d, report) => report.runId == runId && d == device ==> Next(s, w, t).rows == w.rows
    case _ => true
  }

  ghost predicate AllProgressOnly(s: Settings, w: World, ticks: seq<Tick>, runId: Uuid, device: nat, interval: nat)
    requires Possible(s, w, ticks)
    decreases |ticks|
  {
    ticks != [] ==>
      && ProgressOnly(s, w, ticks[0], runId, device, interval)
      && AllProgressOnly(s, Next(s, w, ticks[0]), ticks[1..], runId, device, interval)
  }

  // What holds between steps.

  predicate Shows(a: Attempt, key: Key) {
    a.accepted && a.key == key
  }

  predicate Apart(attempts: seq<Attempt>, key: Key, interval: nat) {
    forall a, b :: 0 <= a < b < |attempts| && Shows(attempts[a], key) && Shows(attempts[b], key) ==>
      attempts[a].at + interval <= attempts[b].at
  }

  /** No pending row with the key is due before a time. */
  predicate NotBefore(rows: seq<Row>, key: Key, time: int) {
    forall i :: 0 <= i < |rows| && IsPending(rows[i], key) ==> time <= rows[i].availableAt
  }

  /** The latest accepted attempt under a key. */
  function LastShown(attempts: seq<Attempt>, key: Key): Option<int> {
    if attempts == [] then None
    else if Shows(attempts[|attempts| - 1], key) then Some(attempts[|attempts| - 1].at)
    else LastShown(attempts[..|attempts| - 1], key)
  }

  predicate Throttled(w: World, key: Key, interval: nat, clock: int) {
    && Apart(w.attempts, key, interval)
    && LatestSent(w.rows, key) == LastShown(w.attempts, key)
    && match LastShown(w.attempts, key)
       case None => true
       case Some(last) => last <= clock && NotBefore(w.rows, key, last + interval)
  }

  // Rows that other keys' steps leave alone.

  /** The sent rows with a key are the same. */
  predicate SameSent(a: seq<Row>, b: seq<Row>, key: Key) {
    && |a| <= |b|
    && (forall i :: 0 <= i < |a| ==> IsSent(a[i], key) == IsSent(b[i], key) && (IsSent(a[i], key) ==> a[i].updatedAt == b[i].updatedAt))
    && (forall i :: |a| <= i < |b| ==> !IsSent(b[i], key))
  }

  lemma {:induction false} SameLatest(a: seq<Row>, b: seq<Row>, key: Key)
    requires SameSent(a, b, key)
    ensures LatestSent(a, key) == LatestSent(b, key)
    decreases |b|
  {
    if b != [] {
      var n := |b| - 1;
      if |a| == |b| {
        SameLatest(a[..n], b[..n], key);
      } else {
        assert b[..n] + [b[n]] == b;
        SameLatest(a, b[..n], key);
      }
    }
  }

  lemma {:induction false} SentOn(a: seq<Row>, b: seq<Row>, c: seq<Row>, key: Key)
    requires SameSent(a, b, key) && SameSent(b, c, key)
    ensures SameSent(a, c, key)
  {
    forall i | |a| <= i < |c| ensures !IsSent(c[i], key) {
      assert i < |b| ==> !IsSent(b[i], key);
    }
  }

  lemma {:induction false} CoalescedLater(rows: seq<Row>, p: Push, now: int, key: Key, time: int)
    requires NotBefore(rows, key, time) && (p.key == key ==> time <= p.availableAt)
    ensures NotBefore(Coalesced(rows, p, now), key, time)
  {
  }

  lemma {:induction false} CoalescedSameSent(rows: seq<Row>, p: Push, now: int, key: Key)
    ensures SameSent(rows, Coalesced(rows, p, now), key)
  {
  }

  predicate PushesNotBefore(pushes: seq<Push>, key: Key, time: int) {
    forall i :: 0 <= i < |pushes| && pushes[i].key == key ==> time <= pushes[i].availableAt
  }

  lemma {:induction false} CoalescedAllSameSent(rows: seq<Row>, pushes: seq<Push>, now: int, key: Key)
    ensures SameSent(rows, CoalescedAll(rows, pushes, now), key)
    decreases |pushes|
  {
    if pushes != [] {
      var n := |pushes| - 1;
      CoalescedAllSameSent(rows, pushes[..n], now, key);
      CoalescedSameSent(CoalescedAll(rows, pushes[..n], now), pushes[n], now, key);
      SentOn(rows, CoalescedAll(rows, pushes[..n], now), CoalescedAll(rows, pushes, now), key);
    }
  }

  lemma {:induction false} CoalescedAllLater(rows: seq<Row>, pushes: seq<Push>, now: int, key: Key, time: int)
    requires NotBefore(rows, key, time) && PushesNotBefore(pushes, key, time)
    ensures NotBefore(CoalescedAll(rows, pushes, now), key, time)
    decreases |pushes|
  {
    if pushes != [] {
      var n := |pushes| - 1;
      CoalescedAllLater(rows, pushes[..n], now, key, time);
      CoalescedLater(CoalescedAll(rows, pushes[..n], now), pushes[n], now, key, time);
    }
  }

  /** A change of the rows that keeps the throttle of a key, whatever its last send was. */
  predicate KeepsThrottle(a: seq<Row>, b: seq<Row>, key: Key, time: Option<int>) {
    SameSent(a, b, key) && (time.Some? && NotBefore(a, key, time.value) ==> NotBefore(b, key, time.value))
  }

  lemma {:induction false} ThrottleKept(w: World, after: World, key: Key, interval: nat, clock: int, now: int)
    requires Throttled(w, key, interval, clock) && clock <= now && after.attempts == w.attempts
    requires KeepsThrottle(w.rows, after.rows, key,
               match LastShown(w.attempts, key) case None => None case Some(last) => Some(last + interval))
    ensures Throttled(after, key, interval, now)
  {
    SameLatest(w.rows, after.rows, key);
  }

  lemma {:induction false} CoalescedKeepsThrottle(rows: seq<Row>, pushes: seq<Push>, now: int, key: Key, time: Option<int>)
    requires time.Some? ==> PushesNotBefore(pushes, key, time.value)
    ensures KeepsThrottle(rows, CoalescedAll(rows, pushes, now), key, time)
  {
    CoalescedAllSameSent(rows, pushes, now, key);
    if time.Some? && NotBefore(rows, key, time.value) {
      CoalescedAllLater(rows, pushes, now, key, time.value);
    }
  }

  lemma {:induction false} ThrottleOn(a: seq<Row>, b: seq<Row>, c: seq<Row>, key: Key, time: Option<int>)
    requires KeepsThrottle(a, b, key, time) && KeepsThrottle(b, c, key, time)
    ensures KeepsThrottle(a, c, key, time)
  {
    SentOn(a, b, c, key);
  }

  /** Rows that leave the pending state otherwise than sent, or are shown anew. */
  lemma {:induction false} MarkedKeepsThrottle(a: seq<Row>, b: seq<Row>, key: Key, time: Option<int>)
    requires |a| == |b|
    requires forall i :: 0 <= i < |a| ==>
               || a[i] == b[i]
               || (a[i].state == PENDING && b[i].state != SENT && b[i].key == a[i].key && b[i].availableAt == a[i].availableAt)
    ensures KeepsThrottle(a, b, key, time)
  {
  }

  // Scheduling.

  lemma {:induction false} StartPushesApart(s: Settings, w: World, run: Run, now: int, n: nat, runId: Uuid, device: nat, time: int)
    requires n <= |w.devices|
    ensures PushesNotBefore(StartPushes(s, w, run, now, n), LiveKey(runId, device), time)
  {
    if n > 0 {
      StartPushesApart(s, w, run, now, n - 1, runId, device, time);
    }
  }

  lemma {:induction false} NotePushesApart(w: World, note: Note, id: nat, now: int, n: nat, runId: Uuid, device: nat, time: int)
    requires n <= |w.devices|
    ensures PushesNotBefore(NotePushes(w, note, id, now, n), LiveKey(runId, device), time)
  {
    if n > 0 {
      NotePushesApart(w, note, id, now, n - 1, runId, device, time);
    }
  }

  /** The push of a binding on another device, or of another run. */
  predicate Elsewhere(w: World, run: Run, runId: Uuid, device: nat) {
    run.id != runId || !HasLive(w, runId, device)
  }

  predicate TooSoon(p: Push, key: Key, time: int) {
    p.key == key && p.availableAt < time
  }

  lemma {:induction false} LivePushNotTooSoon(s: Settings, w: World, run: Run, b: nat, cause: Cause, previous: Option<Progress>, now: int,
                                              runId: Uuid, device: nat, interval: nat, last: int)
    requires b < |w.bindings| && GetsLive(w.bindings[b], run.id)
    requires Elsewhere(w, run, runId, device)
             || (cause == ByEvent(RunProgress) && !IsTerminal(run.status) && Interval(s, w, device) * SECOND == interval
                 && LatestSent(w.rows, LiveKey(runId, device)) == Some(last) && last <= now)
    ensures !TooSoon(LivePush(s, w, run, b, cause, previous, now), LiveKey(runId, device), last + interval)
  {
    if run.id == runId && w.bindings[b].device == device {
      assert HasLive(w, runId, device);
    }
  }

  lemma {:induction false} LivePushesApart(s: Settings, w: World, run: Run, cause: Cause, previous: Option<Progress>, now: int, n: nat,
                                           runId: Uuid, device: nat, interval: nat, last: int)
    requires n <= |w.bindings|
    requires Elsewhere(w, run, runId, device)
             || (cause == ByEvent(RunProgress) && !IsTerminal(run.status) && Interval(s, w, device) * SECOND == interval
                 && LatestSent(w.rows, LiveKey(runId, device)) == Some(last) && last <= now)
    ensures forall i :: 0 <= i < |LivePushes(s, w, run, cause, previous, now, n)| ==>
              !TooSoon(LivePushes(s, w, run, cause, previous, now, n)[i], LiveKey(runId, device), last + interval)
  {
    if n > 0 {
      LivePushesApart(s, w, run, cause, previous, now, n - 1, runId, device, interval, last);
      if GetsLive(w.bindings[n - 1], run.id) {
        LivePushNotTooSoon(s, w, run, n - 1, cause, previous, now, runId, device, interval, last);
      }
    }
  }

  function Earliest(w: World, key: Key, interval: nat): Option<int> {
    match LastShown(w.attempts, key)
    case None => None
    case Some(last) => Some(last + interval)
  }

  lemma {:induction false} LiveKeepsThrottle(s: Settings, w: World, run: Run, cause: Cause, previous: Option<Progress>, now: int,
                                             runId: Uuid, device: nat, interval: nat, last: Option<int>)
    requires Elsewhere(w, run, runId, device)
             || (cause == ByEvent(RunProgress) && !IsTerminal(run.status) && Interval(s, w, device) * SECOND == interval)
    requires last.Some? ==> LatestSent(w.rows, LiveKey(runId, device)) == last && last.value <= now
    ensures KeepsThrottle(w.rows, LiveScheduled(s, w, run, cause, previous, now).rows, LiveKey(runId, device),
                          match last case None => None case Some(at) => Some(at + interval))
  {
    var pushes := LivePushes(s, w, run, cause, previous, now, |w.bindings|);
    if last.Some? {
      LivePushesApart(s, w, run, cause, previous, now, |w.bindings|, runId, device, interval, last.value);
      assert forall i :: 0 <= i < |pushes| ==> !TooSoon(pushes[i], LiveKey(runId, device), last.value + interval);
    }
    CoalescedKeepsThrottle(w.rows, pushes, now, LiveKey(runId, device), match last case None => None case Some(at) => Some(at + interval));
  }

  lemma {:induction false} NotifiedKeepsThrottle(w: World, note: Note, quota: bool, now: int, runId: Uuid, device: nat, time: Option<int>)
    ensures KeepsThrottle(w.rows, Notified(w, note, quota, now).rows, LiveKey(runId, device), time)
  {
    var pushes := NotePushes(w, note, |w.notes|, now, |w.devices|);
    if time.Some? { NotePushesApart(w, note, |w.notes|, now, |w.devices|, runId, device, time.value); }
    CoalescedKeepsThrottle(w.rows, pushes, now, LiveKey(runId, device), time);
    MarkedKeepsThrottle(w.rows, w.rows, LiveKey(runId, device), time);
  }

  lemma {:induction false} FellBackKeepsThrottle(w: World, run: Run, quota: bool, now: int, runId: Uuid, device: nat, time: Option<int>)
    ensures KeepsThrottle(w.rows, FellBack(w, run, quota, now).rows, LiveKey(runId, device), time)
  {
    match FallbackLevel(w.rows, run)
    case Some(level) =>
      NotifiedKeepsThrottle(w, Note(run.workspaceId, Some(run.machineId), Some(run.id), level, Fallback(run.id)), quota, now, runId, device, time);
    case None => MarkedKeepsThrottle(w.rows, w.rows, LiveKey(runId, device), time);
  }

  lemma {:induction false} ScheduledKeepsThrottle(s: Settings, w: World, run: Run, cause: Cause, previous: Option<Progress>, quota: bool, now: int,
                                                  runId: Uuid, device: nat, interval: nat, last: Option<int>)
    requires Starts(cause) || Elsewhere(w, run, runId, device)
             || (cause == ByEvent(RunProgress) && !IsTerminal(run.status) && Interval(s, w, device) * SECOND == interval)
    requires last.Some? ==> LatestSent(w.rows, LiveKey(runId, device)) == last && last.value <= now
    ensures KeepsThrottle(w.rows, Scheduled(s, w, run, cause, previous, quota, now).rows, LiveKey(runId, device),
                          match last case None => None case Some(at) => Some(at + interval))
  {
    var key, time := LiveKey(runId, device), match last case None => None case Some(at) => Some(at + interval);
    if Starts(cause) {
      if last.Some? { StartPushesApart(s, w, run, now, |w.devices|, runId, device, last.value + interval); }
      CoalescedKeepsThrottle(w.rows, StartPushes(s, w, run, now, |w.devices|), now, key, time);
    } else {
      var restarted := w.(rows := Restarted(w.rows, run, now));
      MarkedKeepsThrottle(w.rows, restarted.rows, key, time);
      FellBackKeepsThrottle(restarted, run, quota, now, runId, device, time);
      MarkedKeepsThrottle(restarted.rows, restarted.rows, key, time);
      var ended := if IsTerminal(run.status) then FellBack(restarted, run, quota, now) else restarted;
      ThrottleOn(w.rows, restarted.rows, ended.rows, key, time);
      SameLatest(w.rows, ended.rows, key);
      LiveKeepsThrottle(s, ended, run, cause, previous, now, runId, device, interval, last);
      ThrottleOn(w.rows, ended.rows, LiveScheduled(s, ended, run, cause, previous, now).rows, key, time);
    }
  }

  // Delivery.

  lemma {:induction false} LatestIsMember(rows: seq<Row>, key: Key)
    ensures LatestSent(rows, key).Some? ==> exists i :: 0 <= i < |rows| && IsSent(rows[i], key) && rows[i].updatedAt == LatestSent(rows, key).value
    ensures forall i :: 0 <= i < |rows| && IsSent(rows[i], key) ==> LatestSent(rows, key).Some? && rows[i].updatedAt <= LatestSent(rows, key).value
    decreases |rows|
  {
    if rows != [] {
      LatestIsMember(rows[..|rows| - 1], key);
      var n := |rows| - 1;
      var rest := LatestSent(rows[..n], key);
      if rest.Some? {
        var i :| 0 <= i < n && IsSent(rows[..n][i], key) && rows[..n][i].updatedAt == rest.value;
        assert rows[i] == rows[..n][i];
      }
      forall i | 0 <= i < |rows| && IsSent(rows[i], key) ensures LatestSent(rows, key).Some? && rows[i].updatedAt <= LatestSent(rows, key).value {
        assert i < n ==> rows[..n][i] == rows[i];
      }
    }
  }

  /** A row that is sent now becomes the latest one. */
  lemma {:induction false} SentIsLatest(rows: seq<Row>, i: nat, b: Row, key: Key, now: int)
    requires i < |rows| && IsSent(b, key) && b.updatedAt == now && rows[i].state == PENDING
    requires LatestSent(rows, key).Some? ==> LatestSent(rows, key).value <= now
    ensures LatestSent(rows[i := b], key) == Some(now)
  {
    var after := rows[i := b];
    LatestIsMember(rows, key);
    LatestIsMember(after, key);
    assert IsSent(after[i], key);
    var k :| 0 <= k < |after| && IsSent(after[k], key) && after[k].updatedAt == LatestSent(after, key).value;
    assert k != i ==> IsSent(rows[k], key);
  }

  lemma {:induction false} ApartSnoc(attempts: seq<Attempt>, a: Attempt, key: Key, interval: nat)
    requires Apart(attempts, key, interval)
    requires Shows(a, key) && LastShown(attempts, key).Some? ==> LastShown(attempts, key).value + interval <= a.at
    ensures Apart(attempts + [a], key, interval)
    ensures LastShown(attempts + [a], key) == if Shows(a, key) then Some(a.at) else LastShown(attempts, key)
  {
    var more := attempts + [a];
    assert more[..|attempts|] == attempts;
    LastIsLatest(attempts, key, interval);
    forall j, k | 0 <= j < k < |more| && Shows(more[j], key) && Shows(more[k], key) ensures more[j].at + interval <= more[k].at {
      assert more[j] == attempts[j];
      assert k < |attempts| ==> more[k] == attempts[k];
    }
  }

  lemma {:induction false} LastIsLatest(attempts: seq<Attempt>, key: Key, interval: nat)
    requires Apart(attempts, key, interval)
    ensures forall j :: 0 <= j < |attempts| && Shows(attempts[j], key) ==>
              LastShown(attempts, key).Some? && attempts[j].at <= LastShown(attempts, key).value
    decreases |attempts|
  {
    if attempts != [] {
      var n := |attempts| - 1;
      LastIsLatest(attempts[..n], key, interval);
      forall j | 0 <= j < |attempts| && Shows(attempts[j], key)
        ensures LastShown(attempts, key).Some? && attempts[j].at <= LastShown(attempts, key).value
      {
        assert j < n ==> attempts[..n][j] == attempts[j];
      }
    }
  }

  /** The row and the attempt of a send. */
  lemma SendRow(s: Settings, w: World, i: nat, outcome: Outcome, now: int)
    requires i < |w.rows| && w.rows[i].state == PENDING
    ensures var after := Answered(s, Attempted(w, i, outcome, now), i, outcome, now);
            && after.rows[i].key == w.rows[i].key && after.rows[i].updatedAt == now
            && (after.rows[i].state == PENDING ==> after.rows[i].availableAt >= now)
            && (outcome.Accepted? <==> after.rows[i].state == SENT)
  {
  }

  lemma {:induction false} SendKeepsThrottle(s: Settings, w: World, i: nat, outcome: Outcome, now: int, key: Key, interval: nat, clock: int)
    requires Throttled(w, key, interval, clock) && clock <= now && i < |w.rows| && Due(w.rows[i], now) && OnePending(w.rows)
    ensures Throttled(Answered(s, Attempted(w, i, outcome, now), i, outcome, now), key, interval, now)
  {
    var after := Answered(s, Attempted(w, i, outcome, now), i, outcome, now);
    AnsweredRow(s, w, i, outcome, now);
    SendRow(s, w, i, outcome, now);
    var a := after.attempts[|w.attempts|];
    assert IsPending(w.rows[i], w.rows[i].key);
    ApartSnoc(w.attempts, a, key, interval);
    if Shows(a, key) {
      SentIsLatest(w.rows, i, after.rows[i], key, now);
      SentNotBefore(w.rows, i, after.rows[i], key, now + interval);
    } else {
      assert SameSent(w.rows, after.rows, key);
      SameLatest(w.rows, after.rows, key);
    }
  }

  lemma {:induction false} SentNotBefore(rows: seq<Row>, i: nat, b: Row, key: Key, time: int)
    requires OnePending(rows) && i < |rows| && IsPending(rows[i], key) && b.state == SENT
    ensures NotBefore(rows[i := b], key, time)
  {
  }

  lemma {:induction false} ClosedKeepsThrottle(w: World, i: nat, state: PushState, after: World, key: Key, interval: nat, clock: int, now: int)
    requires Throttled(w, key, interval, clock) && clock <= now && i < |w.rows| && w.rows[i].state == PENDING
    requires state != PENDING && state != SENT
    requires after.rows == Closed(w, i, state, now).rows && after.attempts == w.attempts
    ensures Throttled(after, key, interval, now)
  {
    MarkedKeepsThrottle(w.rows, after.rows, key, Earliest(w, key, interval));
    ThrottleKept(w, after, key, interval, clock, now);
  }

  lemma {:induction false} ProcessKeepsThrottle(s: Settings, w: World, i: nat, outcome: Outcome, now: int, key: Key, interval: nat, clock: int)
    requires Throttled(w, key, interval, clock) && clock <= now && i < |w.rows| && Due(w.rows[i], now) && OnePending(w.rows)
    ensures Throttled(Processed(s, w, i, outcome, now), key, interval, now)
  {
    if Sends(s, w, i, now) {
      SendKeepsThrottle(s, w, i, outcome, now, key, interval, clock);
    } else {
      var state := if IsExpired(w.rows[i], now) then EXPIRED else if !HasCapacity(s, w, w.rows[i]) then SUPPRESSED else CANCELLED_PUSH;
      ClosedKeepsThrottle(w, i, state, Processed(s, w, i, outcome, now), key, interval, clock, now);
    }
  }

  // Steps.

  lemma {:induction false} AcceptKeepsThrottle(s: Settings, w: World, t: Tick, runId: Uuid, device: nat, interval: nat, clock: int)
    requires Enabled(w, t) && t.step.AcceptEvent? && ProgressOnly(s, w, t, runId, device, interval)
    requires Throttled(w, LiveKey(runId, device), interval, clock) && clock <= t.now
    ensures KeepsThrottle(w.rows, Next(s, w, t).rows, LiveKey(runId, device), Earliest(w, LiveKey(runId, device), interval))
  {
    var e := t.step.e;
    var run := Apply(w.runs[e.runId], e);
    ApplyKeepsId(w.runs[e.runId], e);
    var next := w.(runs := w.runs[e.runId := run]);
    assert HasLive(next, runId, device) == HasLive(w, runId, device);
    ScheduledKeepsThrottle(s, next, run, ByEvent(e.kind), w.runs[e.runId].progress, t.step.quota, t.now, runId, device, interval,
                           LastShown(w.attempts, LiveKey(runId, device)));
  }

  /** A registration on another device or for another run pushes under another key. */
  lemma {:induction false} RegisterKeepsThrottle(s: Settings, w: World, t: Tick, runId: Uuid, device: nat, interval: nat, time: Option<int>)
    requires Enabled(w, t) && (t.step.RegisterToken? || t.step.ReportActivity?) && ProgressOnly(s, w, t, runId, device, interval)
    requires forall r :: r in w.runs ==> w.runs[r].id == r
    ensures KeepsThrottle(w.rows, Next(s, w, t).rows, LiveKey(runId, device), time)
  {
    MarkedKeepsThrottle(w.rows, w.rows, LiveKey(runId, device), time);
    var next := Next(s, w, t);
    if next.rows != w.rows {
      var r, d := if t.step.RegisterToken? then t.step.runId else t.step.report.runId,
                  if t.step.RegisterToken? then t.step.device else t.step.device;
      var activity := if t.step.RegisterToken? then t.step.activity else t.step.report.activity;
      var (prepared, i) := WithBinding(w.bindings, r, d, activity);
      var push := BindingPush(w.runs[r], i, prepared[i].device, t.now);
      assert prepared[i].device == d;
      assert next.rows == Coalesced(w.rows, push, t.now);
      CoalescedSameSent(w.rows, push, t.now, LiveKey(runId, device));
      if time.Some? && NotBefore(w.rows, LiveKey(runId, device), time.value) {
        CoalescedLater(w.rows, push, t.now, LiveKey(runId, device), time.value);
      }
    }
  }

  lemma {:induction false} OtherKeepsThrottle(s: Settings, w: World, t: Tick, key: Key, time: Option<int>)
    requires Enabled(w, t)
    requires t.step.NewRun? || t.step.PutAgain? || t.step.EndUnreported? || t.step.StopReceiving? || t.step.RevokeMachine?
             || t.step.ResetDevice? || t.step.Configure?
    ensures KeepsThrottle(w.rows, Next(s, w, t).rows, key, time) && Next(s, w, t).attempts == w.attempts
  {
    MarkedKeepsThrottle(w.rows, Next(s, w, t).rows, key, time);
  }

  lemma {:induction false} AttemptsUnlessProcessed(s: Settings, w: World, t: Tick)
    requires Enabled(w, t) && !t.step.ProcessOne?
    ensures Next(s, w, t).attempts == w.attempts
  {
    AttemptStep(s, w, t);
  }

  lemma {:induction false} RowsKeepThrottle(s: Settings, w: World, t: Tick, runId: Uuid, device: nat, interval: nat, clock: int)
    requires Invariant(s, w) && Enabled(w, t) && ProgressOnly(s, w, t, runId, device, interval) && !t.step.ProcessOne?
    requires Throttled(w, LiveKey(runId, device), interval, clock) && clock <= t.now
    ensures KeepsThrottle(w.rows, Next(s, w, t).rows, LiveKey(runId, device), Earliest(w, LiveKey(runId, device), interval))
  {
    var key := LiveKey(runId, device);
    var time := Earliest(w, key, interval);
    match t.step
    case AcceptEvent(_, _) => AcceptKeepsThrottle(s, w, t, runId, device, interval, clock);
    case RenameMachine(r, quota) =>
      ScheduledKeepsThrottle(s, w, w.runs[r], MachineRenamed, w.runs[r].progress, quota, t.now, runId, device, interval, LastShown(w.attempts, key));
    case Notify(note, quota) => NotifiedKeepsThrottle(w, note, quota, t.now, runId, device, time);
    case RegisterToken(_, _, _, _) => RegisterKeepsThrottle(s, w, t, runId, device, interval, time);
    case ReportActivity(_, _) => RegisterKeepsThrottle(s, w, t, runId, device, interval, time);
    case _ => OtherKeepsThrottle(s, w, t, key, time);
  }

  lemma {:induction false} StepKeepsThrottle(s: Settings, w: World, t: Tick, runId: Uuid, device: nat, interval: nat, clock: int)
    requires Invariant(s, w) && Enabled(w, t) && ProgressOnly(s, w, t, runId, device, interval)
    requires Throttled(w, LiveKey(runId, device), interval, clock) && clock <= t.now
    ensures Throttled(Next(s, w, t), LiveKey(runId, device), interval, t.now)
  {
    if t.step.ProcessOne? {
      ProcessKeepsThrottle(s, w, t.step.i, t.step.outcome, t.now, LiveKey(runId, device), interval, clock);
    } else {
      RowsKeepThrottle(s, w, t, runId, device, interval, clock);
      AttemptsUnlessProcessed(s, w, t);
      ThrottleKept(w, Next(s, w, t), LiveKey(runId, device), interval, clock, t.now);
    }
  }

  lemma {:induction false} HistoryKeepsThrottle(s: Settings, w: World, ticks: seq<Tick>, runId: Uuid, device: nat, interval: nat, clock: int)
    requires Invariant(s, w) && s.maxAttempts >= 1 && Possible(s, w, ticks) && ClockRuns(ticks)
    requires AllProgressOnly(s, w, ticks, runId, device, interval)
    requires Throttled(w, LiveKey(runId, device), interval, clock) && (ticks != [] ==> clock <= ticks[0].now)
    ensures Apart(After(s, w, ticks).attempts, LiveKey(runId, device), interval)
    decreases |ticks|
  {
    if ticks != [] {
      StepKeeps(s, w, ticks[0]);
      StepKeepsThrottle(s, w, ticks[0], runId, device, interval, clock);
      assert forall i :: 0 <= i < |ticks[1..]| ==> ticks[1..][i] == ticks[i + 1];
      HistoryKeepsThrottle(s, Next(s, w, ticks[0]), ticks[1..], runId, device, interval, ticks[0].now);
    }
  }

  // How many updates fit into a span of time.

  predicate InSpan(a: Attempt, key: Key, from: int, to: int) {
    Shows(a, key) && from <= a.at <= to
  }

  function ShownWithin(attempts: seq<Attempt>, key: Key, from: int, to: int): nat {
    if attempts == [] then 0
    else ShownWithin(attempts[..|attempts| - 1], key, from, to) + if InSpan(attempts[|attempts| - 1], key, from, to) then 1 else 0
  }

  /** An update in the span that is later than `n` intervals. */
  predicate ReachedAfter(attempts: seq<Attempt>, key: Key, from: int, to: int, gap: int) {
    exists a :: 0 <= a < |attempts| && InSpan(attempts[a], key, from, to) && from + gap <= attempts[a].at
  }

  lemma {:induction false} ReachedOn(attempts: seq<Attempt>, key: Key, interval: nat, from: int, to: int, gap: int)
    requires attempts != [] && Apart(attempts, key, interval)
    requires ReachedAfter(attempts[..|attempts| - 1], key, from, to, gap)
    ensures ReachedAfter(attempts, key, from, to, gap)
    ensures InSpan(attempts[|attempts| - 1], key, from, to) ==> ReachedAfter(attempts, key, from, to, gap + interval)
  {
    var last := |attempts| - 1;
    var init := attempts[..last];
    var a :| 0 <= a < |init| && InSpan(init[a], key, from, to) && from + gap <= init[a].at;
    assert attempts[a] == init[a];
    assert Shows(attempts[last], key) ==> attempts[a].at + interval <= attempts[last].at;
  }

  /** The intervals between `n` updates. */
  function Gaps(n: nat, interval: nat): nat {
    if n <= 1 then 0 else Gaps(n - 1, interval) + interval
  }

  lemma {:induction false} GapsAre(n: nat, interval: nat)
    requires n > 0
    ensures Gaps(n, interval) == (n - 1) * interval
  {
    if n > 1 {
      GapsAre(n - 1, interval);
      assert (n - 1) * interval == (n - 2) * interval + interval;
    }
  }

  /** The last of the updates in a span comes after the others and the intervals between them. */
  lemma {:induction false} SpansAddUp(attempts: seq<Attempt>, key: Key, interval: nat, from: int, to: int)
    requires Apart(attempts, key, interval)
    ensures var n := ShownWithin(attempts, key, from, to);
            n > 0 ==> ReachedAfter(attempts, key, from, to, Gaps(n, interval))
    decreases |attempts|
  {
    if attempts != [] {
      var last := |attempts| - 1;
      SpansAddUp(attempts[..last], key, interval, from, to);
      var n := ShownWithin(attempts[..last], key, from, to);
      if n > 0 {
        ReachedOn(attempts, key, interval, from, to, Gaps(n, interval));
      }
    }
  }

  /**
   If only progress events schedule the updates of a run on a device, updates that are
   accepted are at least the interval apart, and a span of time T holds no more than
   T / interval + 1 of them.
   */
  lemma {:induction false} ProgressIsThrottled(s: Settings, ticks: seq<Tick>, runId: Uuid, device: nat, interval: nat, from: int, span: nat)
    requires s.maxAttempts >= 1 && Possible(s, EMPTY, ticks) && ClockRuns(ticks)
    requires AllProgressOnly(s, EMPTY, ticks, runId, device, interval)
    ensures var attempts := After(s, EMPTY, ticks).attempts;
            && Apart(attempts, LiveKey(runId, device), interval)
            && (interval > 0 ==> ShownWithin(attempts, LiveKey(runId, device), from, from + span) <= span / interval + 1)
  {
    var key := LiveKey(runId, device);
    EmptyFits(s);
    HistoryKeepsThrottle(s, EMPTY, ticks, runId, device, interval, if ticks == [] then 0 else ticks[0].now);
    var attempts := After(s, EMPTY, ticks).attempts;
    SpansAddUp(attempts, key, interval, from, from + span);
    var n := ShownWithin(attempts, key, from, from + span);
    if interval > 0 && n > 0 {
      GapsAre(n, interval);
      QuotientIs(span, n - 1, interval);
    }
  }
}
