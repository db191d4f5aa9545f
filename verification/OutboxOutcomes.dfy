/** What one delivery makes of its row, and of the binding, device or token it was for (server/app/outbox.py: process_one). */
module OutboxOutcomes {
  import opened Arithmetic
  import opened Wrappers
  import opened Events
  import opened Ingest
  import opened Outbox
  import opened OutboxRuns
  import opened OutboxCapacity

  /** Live pushes are not sent for ever: starts for five minutes, ends for four hours, updates until they are stale. */
  predicate IsOverdue(r: Row, now: int) {
    match r.kind
    case LIVE_START => Seconds(now) >= r.payload.timestamp + 300
    case LIVE_END => Seconds(now) >= r.payload.timestamp + 14_400
    case LIVE_UPDATE => Seconds(now) >= r.payload.staleDate
    case NOTIFICATION => false
  }

  /** The device has no room for one more activity. */
  predicate IsFull(s: Settings, w: World, r: Row) {
    r.kind == LIVE_START && r.target.DeviceTarget? && Occupied(w.bindings, r.target.device) >= s.maxPerDevice
  }

  /** There is a token to send to. */
  predicate IsReachable(w: World, r: Row) {
    match r.target
    case DeviceTarget(d) =>
      && d < |w.devices| && !w.devices[d].revoked
      && ((r.kind == LIVE_START && w.devices[d].startToken) || (r.kind != LIVE_START && w.devices[d].noteToken))
    case ActivityTarget(b) => b < |w.bindings| && w.bindings[b].token && !w.bindings[b].invalidated
  }

  predicate IsSentNow(s: Settings, w: World, r: Row, now: int) {
    !IsOverdue(r, now) && !IsFull(s, w, r) && IsReachable(w, r)
  }

  /** The row after the delivery. */
  predicate RowTells(s: Settings, w: World, before: Row, after: Row, outcome: Outcome, now: int) {
    && (after.kind, after.target, after.runId, after.payload, after.priority, after.key, after.createdAt)
       == (before.kind, before.target, before.runId, before.payload, before.priority, before.key, before.createdAt)
    && after.updatedAt == now
    && if IsOverdue(before, now) then after.state == EXPIRED && (after.attempts, after.availableAt) == (before.attempts, before.availableAt)
       else if IsFull(s, w, before) then after.state == SUPPRESSED && (after.attempts, after.availableAt) == (before.attempts, before.availableAt)
       else if !IsReachable(w, before) then after.state == CANCELLED_PUSH && (after.attempts, after.availableAt) == (before.attempts, before.availableAt)
       else
         && after.attempts == before.attempts + 1
         && match outcome {
              case Accepted => after.state == SENT && after.availableAt == before.availableAt
              case InvalidToken => after.state == FAILED_PUSH && after.availableAt == before.availableAt
              case Refused => after.state == FAILED_PUSH && after.availableAt == before.availableAt
              case Retryable =>
                if after.attempts < s.maxAttempts then after.state == before.state && after.availableAt == now + RetryDelay(after.attempts)
                else after.state == FAILED_PUSH && after.availableAt == before.availableAt
            }
  }

  lemma {:induction false} SendsIfReachable(s: Settings, w: World, i: nat, now: int)
    requires i < |w.rows|
    ensures Sends(s, w, i, now) <==> IsSentNow(s, w, w.rows[i], now)
    ensures IsExpired(w.rows[i], now) <==> IsOverdue(w.rows[i], now)
    ensures HasCapacity(s, w, w.rows[i]) <==> !IsFull(s, w, w.rows[i])
    ensures HasToken(w, w.rows[i]) <==> IsReachable(w, w.rows[i])
  {
  }

  lemma {:induction false} SentRowTells(s: Settings, w: World, i: nat, outcome: Outcome, now: int)
    requires i < |w.rows| && IsSentNow(s, w, w.rows[i], now)
    ensures |Processed(s, w, i, outcome, now).rows| == |w.rows|
    ensures RowTells(s, w, w.rows[i], Processed(s, w, i, outcome, now).rows[i], outcome, now)
  {
    SendsIfReachable(s, w, i, now);
  }

  /** What becomes of the row that is taken. */
  lemma {:induction false} DeliveryTells(s: Settings, w: World, i: nat, outcome: Outcome, now: int)
    requires i < |w.rows|
    ensures |Processed(s, w, i, outcome, now).rows| == |w.rows|
    ensures RowTells(s, w, w.rows[i], Processed(s, w, i, outcome, now).rows[i], outcome, now)
  {
    SendsIfReachable(s, w, i, now);
    if IsSentNow(s, w, w.rows[i], now) { SentRowTells(s, w, i, outcome, now); }
  }

  /** What becomes of the binding that it is for: an end, accepted or too late, ends it, and an invalid token makes it unreachable. */
  lemma {:induction false} BindingTells(s: Settings, w: World, i: nat, outcome: Outcome, now: int, b: nat)
    requires i < |w.rows| && b < |w.bindings| && w.rows[i].target == ActivityTarget(b)
    ensures var r, before, after := w.rows[i], w.bindings[b], Processed(s, w, i, outcome, now);
            && |after.bindings| == |w.bindings|
            && after.bindings[b] ==
               (if IsOverdue(r, now) then (if r.kind == LIVE_END then before.(state := EXPIRED_BINDING) else before)
                else if !IsSentNow(s, w, r, now) then before
                else if outcome == InvalidToken then before.(state := INVALIDATED, invalidated := true, token := false)
                else if outcome == Accepted && r.kind == LIVE_END then before.(state := ENDED)
                else before)
            && after.devices == w.devices && forall k :: 0 <= k < |w.bindings| && k != b ==> after.bindings[k] == w.bindings[k]
  {
    SendsIfReachable(s, w, i, now);
  }

  /** What becomes of the device that it is for: the invalid token is forgotten, and no other. */
  lemma {:induction false} DeviceTells(s: Settings, w: World, i: nat, outcome: Outcome, now: int, d: nat)
    requires i < |w.rows| && d < |w.devices| && w.rows[i].target == DeviceTarget(d)
    ensures var r, before, after := w.rows[i], w.devices[d], Processed(s, w, i, outcome, now);
            && |after.devices| == |w.devices|
            && after.devices[d] ==
               (if !IsSentNow(s, w, r, now) || outcome != InvalidToken then before
                else if r.kind == LIVE_START then before.(startToken := false) else before.(noteToken := false))
            && forall k :: 0 <= k < |w.devices| && k != d ==> after.devices[k] == w.devices[k]
  {
    SendsIfReachable(s, w, i, now);
  }

  /** The attempt that is recorded. */
  lemma {:induction false} AttemptTells(s: Settings, w: World, i: nat, outcome: Outcome, now: int)
    requires i < |w.rows|
    ensures var r, n, after := w.rows[i], |w.attempts|, Processed(s, w, i, outcome, now).attempts;
            if !IsSentNow(s, w, r, now) then after == w.attempts
            else |after| == n + 1 && after[..n] == w.attempts
                 && after[n] == Attempt(i, r.key, r.kind, r.payload.sequence, now, outcome == Accepted)
  {
    SendsIfReachable(s, w, i, now);
  }

  /** The wait before a push is tried again doubles from two seconds with each attempt, until it is 256 seconds. */
  lemma {:induction false} RetryDelayDoubles(n: nat)
    ensures RetryDelay(1) == 2_000_000
    ensures 1 <= n < 8 ==> RetryDelay(n + 1) == 2 * RetryDelay(n)
    ensures n >= 8 ==> RetryDelay(n) == 256_000_000
  {
    PowersOfTwo();
  }

  lemma PowersOfTwo()
    ensures Pow2(0) == 1 && Pow2(1) == 2 && Pow2(2) == 4 && Pow2(3) == 8 && Pow2(4) == 16
    ensures Pow2(5) == 32 && Pow2(6) == 64 && Pow2(7) == 128 && Pow2(8) == 256
  {
    assert Pow2(2) == 4;
    assert Pow2(4) == 16;
    assert Pow2(6) == 64;
  }
}
