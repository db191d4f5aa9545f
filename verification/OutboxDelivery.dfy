/**
 What one delivery leaves behind (server/app/outbox.py: process_one): the slots that
 activities occupy on a device, the bindings and tokens that later pushes still reach,
 and the attempts that are counted.
 */
module OutboxDelivery {
  import opened Wrappers
  import opened Events
  import opened Ingest
  import opened Outbox
  import opened OutboxRuns
  import opened OutboxCapacity

  // Slots.

  /** An activity of the row's run starts on a device. */
  predicate StartsOn(r: Row, d: nat) {
    r.kind == LIVE_START && r.runId.Some? && r.target == DeviceTarget(d)
  }

  /** The row is about a binding that occupies a slot of a device. */
  predicate AboutSlot(w: World, r: Row, d: nat) {
    r.target.ActivityTarget? && r.target.binding < |w.bindings| && Occupies(w.bindings[r.target.binding], d)
  }

  predicate TakesSlot(s: Settings, w: World, i: nat, outcome: Outcome, now: int, d: nat)
    requires i < |w.rows|
  {
    Sends(s, w, i, now) && outcome == Accepted && StartsOn(w.rows[i], d)
  }

  /** The end of an activity has expired or was accepted, or the token of the activity is invalid. */
  predicate FreesSlot(s: Settings, w: World, i: nat, outcome: Outcome, now: int, d: nat)
    requires i < |w.rows|
  {
    && AboutSlot(w, w.rows[i], d)
    && (if IsExpired(w.rows[i], now) then w.rows[i].kind == LIVE_END
        else Sends(s, w, i, now) && ((outcome == Accepted && w.rows[i].kind == LIVE_END) || outcome == InvalidToken))
  }

  function StartedBinding(runId: Uuid, device: nat, i: nat): Binding {
    Binding(runId, device, PendingStart(i), false, 0, ACTIVE, 0, false)
  }

  /** What happens to the bindings. */
  lemma {:induction false} BindingsAfter(s: Settings, w: World, i: nat, outcome: Outcome, now: int)
    requires i < |w.rows|
    ensures var r, after := w.rows[i], Processed(s, w, i, outcome, now).bindings;
            match r.target
            case DeviceTarget(d) =>
              after == if Sends(s, w, i, now) && outcome == Accepted && r.kind == LIVE_START && r.runId.Some?
                       then w.bindings + [StartedBinding(r.runId.value, d, i)] else w.bindings
            case ActivityTarget(b) =>
              if b >= |w.bindings| then after == w.bindings
              else && |after| == |w.bindings| && after == w.bindings[b := after[b]]
                   && forall d :: One(Occupies(after[b], d)) + One(FreesSlot(s, w, i, outcome, now, d)) == One(Occupies(w.bindings[b], d))
  {
  }

  /** One delivery takes at most one slot and frees at most one, on the device it is about; on every device the count balances. */
  lemma {:induction false} SlotsBalance(s: Settings, w: World, i: nat, outcome: Outcome, now: int, d: nat)
    requires i < |w.rows|
    ensures Occupied(Processed(s, w, i, outcome, now).bindings, d) + One(FreesSlot(s, w, i, outcome, now, d))
            == Occupied(w.bindings, d) + One(TakesSlot(s, w, i, outcome, now, d))
  {
    var r, after := w.rows[i], Processed(s, w, i, outcome, now);
    BindingsAfter(s, w, i, outcome, now);
    match r.target
    case ActivityTarget(b) =>
      if b < |w.bindings| {
        OccupiedUpdate(w.bindings, b, after.bindings[b], d);
      }
    case DeviceTarget(device) =>
      if Sends(s, w, i, now) && outcome == Accepted && r.kind == LIVE_START && r.runId.Some? {
        OccupiedSnoc(w.bindings, StartedBinding(r.runId.value, device, i), d);
      }
  }

  // Bindings.

  predicate ForBinding(p: Push, b: nat) {
    p.target == ActivityTarget(b)
  }

  lemma {:induction false} PushesSkip(s: Settings, w: World, run: Run, cause: Cause, previous: Option<Progress>, now: int, n: nat, b: nat)
    requires b < |w.bindings| && n <= |w.bindings| && !GetsLive(w.bindings[b], run.id)
    ensures forall k :: 0 <= k < |LivePushes(s, w, run, cause, previous, now, n)| ==> !ForBinding(LivePushes(s, w, run, cause, previous, now, n)[k], b)
  {
    if n > 0 {
      PushesSkip(s, w, run, cause, previous, now, n - 1, b);
    }
  }

  /** An end of an activity that was accepted or has expired. */
  predicate EndsBinding(s: Settings, w: World, i: nat, outcome: Outcome, now: int, b: nat)
    requires i < |w.rows|
  {
    && b < |w.bindings| && w.rows[i].kind == LIVE_END && w.rows[i].target == ActivityTarget(b)
    && (IsExpired(w.rows[i], now) || (Sends(s, w, i, now) && outcome == Accepted))
  }

  /**
   Right after such an end no event of any run makes a push for the binding, and it has no
   slot; all other bindings are what they were.
   */
  lemma {:induction false} EndCloses(s: Settings, w: World, i: nat, outcome: Outcome, now: int, b: nat,
                                     run: Run, cause: Cause, previous: Option<Progress>, later: int)
    requires i < |w.rows| && EndsBinding(s, w, i, outcome, now, b)
    ensures var after := Processed(s, w, i, outcome, now);
            var pushes := LivePushes(s, after, run, cause, previous, later, |after.bindings|);
            && after.rows[i].state == (if IsExpired(w.rows[i], now) then EXPIRED else SENT)
            && |after.bindings| == |w.bindings|
            && (forall d :: !Occupies(after.bindings[b], d))
            && (forall k :: 0 <= k < |pushes| ==> !ForBinding(pushes[k], b))
            && (forall k :: 0 <= k < |w.bindings| && k != b ==> after.bindings[k] == w.bindings[k])
  {
    var after := Processed(s, w, i, outcome, now);
    PushesSkip(s, after, run, cause, previous, later, |after.bindings|, b);
  }

  /** An accepted start leaves a placeholder that the registration of the activity will find, and no fallback is due for its run. */
  lemma {:induction false} StartLeavesPlaceholder(s: Settings, w: World, i: nat, now: int, d: nat, run: Run)
    requires i < |w.rows| && Sends(s, w, i, now) && StartsOn(w.rows[i], d) && w.rows[i].runId == Some(run.id)
    ensures var after := Processed(s, w, i, Accepted, now);
            && FindPlaceholder(after.bindings, run.id, d) < |after.bindings|
            && FallbackLevel(after.rows, run) == None
            && Occupied(w.bindings, d) < Occupied(after.bindings, d) <= s.maxPerDevice
            && after.bindings[..|w.bindings|] == w.bindings
  {
    var after := Processed(s, w, i, Accepted, now);
    var n := |w.bindings|;
    SlotsBalance(s, w, i, Accepted, now, d);
    assert IsPlaceholder(after.bindings[n], run.id, d);
    assert after.rows[i].runId == Some(run.id) && after.rows[i].kind == LIVE_START && after.rows[i].state == SENT;
  }

  // Tokens.

  /** Two rows are sent with the same token. */
  predicate SameToken(a: Row, b: Row) {
    a.target == b.target && (a.target.DeviceTarget? ==> (a.kind == LIVE_START <==> b.kind == LIVE_START))
  }

  /** An invalid token is gone for every row that would use it, and for no other row. */
  lemma {:induction false} InvalidTokenIsGone(s: Settings, w: World, i: nat, now: int, r: Row)
    requires i < |w.rows| && Sends(s, w, i, now)
    ensures HasToken(Processed(s, w, i, InvalidToken, now), r) <==> HasToken(w, r) && !SameToken(w.rows[i], r)
  {
    var after := Processed(s, w, i, InvalidToken, now);
    match w.rows[i].target
    case DeviceTarget(d) => assert |after.devices| == |w.devices|;
    case ActivityTarget(b) => assert |after.bindings| == |w.bindings|;
  }

  // Attempts.

  function AttemptOf(w: World, i: nat, outcome: Outcome, now: int): Attempt
    requires i < |w.rows|
  {
    Attempt(i, w.rows[i].key, w.rows[i].kind, w.rows[i].payload.sequence, now, outcome.Accepted?)
  }

  lemma {:induction false} DeliveredRow(s: Settings, w: World, i: nat, outcome: Outcome, now: int)
    requires i < |w.rows|
    ensures var after := Processed(s, w, i, outcome, now);
            && |after.rows| == |w.rows| && after.rows == w.rows[i := after.rows[i]]
            && after.rows[i].attempts == w.rows[i].attempts + One(Sends(s, w, i, now))
            && after.attempts == w.attempts + if Sends(s, w, i, now) then [AttemptOf(w, i, outcome, now)] else []
  {
  }

  /** An attempt is counted for the row that is sent, once, in the row and in the table; no other row changes. */
  lemma {:induction false} AttemptsAreCounted(s: Settings, w: World, i: nat, outcome: Outcome, now: int, k: nat)
    requires i < |w.rows| && k < |w.rows|
    ensures var after := Processed(s, w, i, outcome, now);
            && |after.rows| == |w.rows|
            && after.rows[k].attempts == w.rows[k].attempts + One(k == i && Sends(s, w, i, now))
            && AttemptsOn(after.attempts, k) == AttemptsOn(w.attempts, k) + One(k == i && Sends(s, w, i, now))
            && (k != i ==> after.rows[k] == w.rows[k])
  {
    DeliveredRow(s, w, i, outcome, now);
    AttemptsSnoc(w.attempts, AttemptOf(w, i, outcome, now), k);
  }
}
