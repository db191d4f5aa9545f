/**
 When a mere progress may be shown, what becomes of the starts that wait, and what a
 renamed machine makes of the activities of its runs (server/app/services.py:
 schedule_run_pushes).
 */
module OutboxProgress {
  import opened Arithmetic
  import opened Wrappers
  import opened Events
  import opened Ingest
  import opened Outbox
  import opened OutboxRuns
  import opened OutboxLaws
  import opened OutboxThrottle
  import opened OutboxUrgency
  import opened OutboxReach

  // The time of a progress.

  /** The progress has changed by less than a hundredth. */
  predicate IsSlight(before: Option<Progress>, after: Option<Progress>) {
    && Share(before).Some? && Share(after).Some?
    && Share(after).value - Share(before).value < 0.01 && Share(before).value - Share(after).value < 0.01
  }

  /** The interval between updates of a device: at least 15 seconds unless it shows frequent ones. */
  function IntervalOf(s: Settings, w: World, d: nat): int {
    1_000_000 * if d < |w.devices| && !w.devices[d].frequent && s.updateInterval <= 15 then 15 else s.updateInterval
  }

  /** An interval later if it is slight, else as soon as an interval has passed since every update that was sent. */
  predicate IsShownAt(rows: seq<Row>, key: Key, slight: bool, interval: int, now: int, at: int) {
    if slight then at == now + interval
    else
      && at >= now
      && (forall i :: 0 <= i < |rows| && rows[i].state == SENT && rows[i].key == key ==> at >= rows[i].updatedAt + interval)
      && (at == now || exists i :: 0 <= i < |rows| && rows[i].state == SENT && rows[i].key == key && at == rows[i].updatedAt + interval)
  }

  lemma {:induction false} LatestBounds(rows: seq<Row>, key: Key)
    ensures forall i :: 0 <= i < |rows| && rows[i].state == SENT && rows[i].key == key ==>
              LatestSent(rows, key).Some? && rows[i].updatedAt <= LatestSent(rows, key).value
    ensures LatestSent(rows, key).Some? ==>
              exists i :: 0 <= i < |rows| && rows[i].state == SENT && rows[i].key == key && rows[i].updatedAt == LatestSent(rows, key).value
    decreases |rows|
  {
    if rows != [] {
      var n := |rows| - 1;
      LatestBounds(rows[..n], key);
      if LatestSent(rows[..n], key).Some? {
        var i :| 0 <= i < n && rows[..n][i].state == SENT && rows[..n][i].key == key
                 && rows[..n][i].updatedAt == LatestSent(rows[..n], key).value;
        assert rows[i].state == SENT;
      }
      forall i | 0 <= i < |rows| && rows[i].state == SENT && rows[i].key == key
        ensures LatestSent(rows, key).Some? && rows[i].updatedAt <= LatestSent(rows, key).value
      {
        assert i < n ==> rows[..n][i] == rows[i];
      }
    }
  }

  lemma {:induction false} ProgressIsShownAt(s: Settings, w: World, run: Run, device: nat, previous: Option<Progress>, now: int)
    ensures IsShownAt(w.rows, LiveKey(run.id, device), IsSlight(previous, run.progress), IntervalOf(s, w, device), now,
                      ProgressAt(s, w, run, device, previous, now))
  {
    LatestBounds(w.rows, LiveKey(run.id, device));
  }

  predicate AllAt(pushes: seq<Push>, key: Key, at: int) {
    forall i :: 0 <= i < |pushes| && pushes[i].key == key ==> pushes[i].availableAt == at
  }

  /** A row that waits under a key after pushes for one time. */
  predicate TimeFits(before: Option<Row>, after: Option<Row>, at: int) {
    match before
    case None => after.Some? ==> after.value.availableAt == at
    case Some(r) => after.Some? && (after.value.availableAt == r.availableAt || (after.value.availableAt == at && at <= r.availableAt))
  }

  lemma {:induction false} CoalescedTime(rows: seq<Row>, pushes: seq<Push>, now: int, key: Key, at: int)
    requires AllAt(pushes, key, at)
    ensures TimeFits(Waiting(rows, key), Waiting(CoalescedAll(rows, pushes, now), key), at)
    decreases |pushes|
  {
    if pushes != [] {
      var n := |pushes| - 1;
      CoalescedTime(rows, pushes[..n], now, key, at);
      WaitingAfter(CoalescedAll(rows, pushes[..n], now), pushes[n], now, key);
    }
  }

  lemma {:induction false} LivesAtTime(s: Settings, w: World, run: Run, previous: Option<Progress>, now: int, n: nat, device: nat)
    requires n <= |w.bindings| && !IsTerminal(run.status)
    ensures AllAt(LivePushes(s, w, run, ByEvent(RunProgress), previous, now, n), LiveKey(run.id, device),
                  ProgressAt(s, w, run, device, previous, now))
  {
    if n > 0 { LivesAtTime(s, w, run, previous, now, n - 1, device); }
  }

  /** Rows that still wait, or no longer do, were refreshed in place. */
  lemma {:induction false} RestartedWaits(rows: seq<Row>, run: Run, now: int, key: Key)
    requires !IsTerminal(run.status)
    ensures var before, after := Waiting(rows, key), Waiting(Restarted(rows, run, now), key);
            before.Some? == after.Some? && (before.Some? ==> after.value.availableAt == before.value.availableAt)
  {
    var after := Restarted(rows, run, now);
    assert forall i :: 0 <= i < |rows| ==> (IsPending(after[i], key) <==> IsPending(rows[i], key));
    var i, j := FindPending(rows, key), FindPending(after, key);
    assert i < |rows| ==> IsPending(after[i], key);
    assert j < |rows| ==> IsPending(rows[j], key);
  }

  /** What a progress makes of the time of the update that waits for an activity: the sooner one, if one waited before. */
  predicate ProgressTold(s: Settings, before: World, after: World, e: Event, now: int, device: nat, at: int)
    requires e.runId in before.runs && e.runId in after.runs
  {
    var key := LiveKey(e.runId, device);
    var slight := IsSlight(before.runs[e.runId].progress, after.runs[e.runId].progress);
    && IsShownAt(before.rows, key, slight, IntervalOf(s, before, device), now, at)
    && Waiting(after.rows, key).Some?
    && Waiting(after.rows, key).value.availableAt ==
         match Waiting(before.rows, key)
         case Some(r) => if r.availableAt <= at then r.availableAt else at
         case None => at
  }

  lemma {:induction false} ShownAtStays(rows: seq<Row>, run: Run, key: Key, slight: bool, interval: int, now: int, at: int)
    requires IsShownAt(Restarted(rows, run, now), key, slight, interval, now, at)
    ensures IsShownAt(rows, key, slight, interval, now, at)
  {
    var after := Restarted(rows, run, now);
    assert forall i :: 0 <= i < |rows| ==> (rows[i].state == SENT <==> after[i].state == SENT) && (rows[i].state == SENT ==> after[i] == rows[i]);
  }

  /** After a progress was accepted, an update waits for every activity of the run, and its time is the soonest that is allowed. */
  lemma {:induction false} ProgressReachesActivities(s: Settings, w: World, e: Event, quota: bool, now: int, b: nat) returns (at: int)
    requires Enabled(w, Tick(AcceptEvent(e, quota), now)) && e.kind == RunProgress && b < |w.bindings| && IsShown(w.bindings[b], e.runId)
    ensures var after := Next(s, w, Tick(AcceptEvent(e, quota), now));
            e.runId in after.runs && ProgressTold(s, w, after, e, now, w.bindings[b].device, at)
  {
    var run, previous, device := Apply(w.runs[e.runId], e), w.runs[e.runId].progress, w.bindings[b].device;
    var with, key := w.(runs := w.runs[e.runId := run]), LiveKey(e.runId, device);
    var restarted := with.(rows := Restarted(w.rows, run, now));
    var pushes := LivePushes(s, restarted, run, ByEvent(RunProgress), previous, now, |w.bindings|);
    AcceptedRun(w, e);
    at := ProgressAt(s, restarted, run, device, previous, now);
    ProgressIsShownAt(s, restarted, run, device, previous, now);
    ShownAtStays(w.rows, run, key, IsSlight(previous, run.progress), IntervalOf(s, w, device), now, at);
    RestartedWaits(w.rows, run, now, key);
    LivesAtTime(s, restarted, run, previous, now, |w.bindings|, device);
    CoalescedTime(restarted.rows, pushes, now, key, at);
    ProgressWaits(s, restarted, run, previous, now, b, at);
  }

  lemma {:induction false} ProgressWaits(s: Settings, w: World, run: Run, previous: Option<Progress>, now: int, b: nat, at: int)
    requires !IsTerminal(run.status) && b < |w.bindings| && GetsLive(w.bindings[b], run.id)
    requires at == ProgressAt(s, w, run, w.bindings[b].device, previous, now)
    ensures var waits := Waiting(LiveScheduled(s, w, run, ByEvent(RunProgress), previous, now).rows, LiveKey(run.id, w.bindings[b].device));
            waits.Some? && waits.value.availableAt <= at
  {
    var key, pushes := LiveKey(run.id, w.bindings[b].device), LivePushes(s, w, run, ByEvent(RunProgress), previous, now, |w.bindings|);
    var k := PushForBinding(s, w, run, ByEvent(RunProgress), previous, now, |w.bindings|, b);
    LivesSameShown(s, w, run, ByEvent(RunProgress), previous, now, |w.bindings|, key);
    PushWaits(w.rows, pushes, now, k);
  }

  // Starts that wait.

  lemma {:induction false} RowStays(rows: seq<Row>, pushes: seq<Push>, now: int, i: nat)
    requires i < |rows| && NoneUnder(pushes, rows[i].key)
    ensures |CoalescedAll(rows, pushes, now)| > i && CoalescedAll(rows, pushes, now)[i] == rows[i]
    decreases |pushes|
  {
    if pushes != [] {
      RowStays(rows, pushes[..|pushes| - 1], now, i);
    }
  }

  lemma {:induction false} NotesUnderNone(w: World, note: Note, id: nat, now: int, n: nat, key: Key)
    requires n <= |w.devices| && !key.NoteKey?
    ensures NoneUnder(NotePushes(w, note, id, now, n), key)
  {
    if n > 0 { NotesUnderNone(w, note, id, now, n - 1, key); }
  }

  lemma {:induction false} FellBackKeepsStart(w: World, run: Run, quota: bool, now: int, i: nat)
    requires i < |w.rows| && w.rows[i].key.StartKey?
    ensures i < |FellBack(w, run, quota, now).rows| && FellBack(w, run, quota, now).rows[i] == w.rows[i]
  {
    match FallbackLevel(w.rows, run)
    case Some(level) =>
      var note := Note(run.workspaceId, Some(run.machineId), Some(run.id), level, Fallback(run.id));
      NotesUnderNone(w, note, |w.notes|, now, |w.devices|, w.rows[i].key);
      RowStays(w.rows, NotePushes(w, note, |w.notes|, now, |w.devices|), now, i);
    case None =>
  }

  /** A start that waits shows the run as it is, and is cancelled if the run has ended; a start of another run is left alone. */
  predicate StartTold(before: Row, after: Row, run: Run, now: int) {
    if before.runId == Some(run.id)
    then after == before.(payload := LiveState(if run.lastSeq == 0 then 1 else run.lastSeq, Seconds(now), Seconds(run.updatedAt + 60_000_000)),
                          priority := if before.priority <= 10 then 10 else before.priority, updatedAt := now,
                          state := if run.status in {SUCCEEDED, FAILED, CANCELLED, LOST} then CANCELLED_PUSH else PENDING)
    else after == before
  }

  lemma {:induction false} ScheduledStart(s: Settings, w: World, run: Run, cause: Cause, previous: Option<Progress>, quota: bool, now: int, i: nat)
    requires !Starts(cause) && i < |w.rows| && w.rows[i].kind == LIVE_START && w.rows[i].state == PENDING && w.rows[i].key.StartKey?
    ensures var after := Scheduled(s, w, run, cause, previous, quota, now).rows; i < |after| && StartTold(w.rows[i], after[i], run, now)
  {
    var restarted := w.(rows := Restarted(w.rows, run, now));
    var ended := if IsTerminal(run.status) then FellBack(restarted, run, quota, now) else restarted;
    FellBackKeepsStart(restarted, run, quota, now, i);
    LivesUnderNone(s, ended, run, cause, previous, now, |ended.bindings|, w.rows[i].key);
    RowStays(ended.rows, LivePushes(s, ended, run, cause, previous, now, |ended.bindings|), now, i);
  }

  /** In every history, after an event that does not start its run was accepted, the starts that wait are told. */
  lemma {:induction false} EventReachesStarts(s: Settings, ticks: seq<Tick>, e: Event, quota: bool, now: int, i: nat)
    requires s.maxAttempts >= 1 && Possible(s, EMPTY, ticks) && GoesOn(After(s, EMPTY, ticks), e, quota, now)
    requires var rows := After(s, EMPTY, ticks).rows; i < |rows| && rows[i].kind == LIVE_START && rows[i].state == PENDING
    ensures var w := After(s, EMPTY, ticks);
            var after := Next(s, w, Tick(AcceptEvent(e, quota), now));
            && e.runId in after.runs && after.runs[e.runId].id == e.runId && i < |after.rows|
            && StartTold(w.rows[i], after.rows[i], after.runs[e.runId], now)
  {
    var w := After(s, EMPTY, ticks);
    var run := Apply(w.runs[e.runId], e);
    HistoryKeeps(s, EMPTY, ticks) by { EmptyFits(s); }
    assert RowFits(w.rows[i], w.runs, s.maxAttempts);
    AcceptedRun(w, e);
    ApplyKeepsId(w.runs[e.runId], e);
    var with := w.(runs := w.runs[e.runId := run]);
    ScheduledStart(s, with, run, ByEvent(e.kind), w.runs[e.runId].progress, quota, now, i);
    RunsScheduled(s, with, run, ByEvent(e.kind), w.runs[e.runId].progress, quota, now);
  }

  // Who is not told.

  /** No activity of the run is shown on the device, with a token to update it. */
  predicate ShowsNone(w: World, runId: Uuid, d: nat) {
    forall b :: 0 <= b < |w.bindings| && w.bindings[b].device == d ==> !IsShown(w.bindings[b], runId)
  }

  lemma {:induction false} LivesForShown(s: Settings, w: World, run: Run, cause: Cause, previous: Option<Progress>, now: int, n: nat, d: nat)
    requires n <= |w.bindings| && ShowsNone(w, run.id, d)
    ensures NoneUnder(LivePushes(s, w, run, cause, previous, now, n), LiveKey(run.id, d))
  {
    if n > 0 { LivesForShown(s, w, run, cause, previous, now, n - 1, d); }
  }

  lemma {:induction false} RestartedKeeps(rows: seq<Row>, run: Run, now: int, key: Key)
    requires forall i :: 0 <= i < |rows| && rows[i].key == key ==> rows[i].kind != LIVE_START
    ensures Waiting(Restarted(rows, run, now), key) == Waiting(rows, key)
  {
    var after := Restarted(rows, run, now);
    assert forall i :: 0 <= i < |rows| ==> after[i].key == rows[i].key && (rows[i].key == key ==> after[i] == rows[i]);
    var i, j := FindPending(rows, key), FindPending(after, key);
    assert i < |rows| ==> IsPending(after[i], key);
    assert j < |rows| ==> IsPending(rows[j], key);
  }

  lemma {:induction false} FellBackKeeps(w: World, run: Run, quota: bool, now: int, key: Key)
    requires !key.NoteKey?
    ensures Waiting(FellBack(w, run, quota, now).rows, key) == Waiting(w.rows, key)
  {
    match FallbackLevel(w.rows, run)
    case Some(level) =>
      var note := Note(run.workspaceId, Some(run.machineId), Some(run.id), level, Fallback(run.id));
      NotesUnderNone(w, note, |w.notes|, now, |w.devices|, key);
      WaitingStays(w.rows, NotePushes(w, note, |w.notes|, now, |w.devices|), now, key);
    case None =>
  }

  lemma {:induction false} ScheduledSkips(s: Settings, w: World, run: Run, cause: Cause, previous: Option<Progress>, quota: bool, now: int, d: nat)
    requires !Starts(cause) && ShowsNone(w, run.id, d)
    requires forall i :: 0 <= i < |w.rows| && w.rows[i].key == LiveKey(run.id, d) ==> w.rows[i].kind != LIVE_START
    ensures Waiting(Scheduled(s, w, run, cause, previous, quota, now).rows, LiveKey(run.id, d)) == Waiting(w.rows, LiveKey(run.id, d))
  {
    var key, restarted := LiveKey(run.id, d), w.(rows := Restarted(w.rows, run, now));
    var ended := if IsTerminal(run.status) then FellBack(restarted, run, quota, now) else restarted;
    RestartedKeeps(w.rows, run, now, key);
    FellBackKeeps(restarted, run, quota, now, key);
    LivesForShown(s, ended, run, cause, previous, now, |ended.bindings|, d);
    WaitingStays(ended.rows, LivePushes(s, ended, run, cause, previous, now, |ended.bindings|), now, key);
  }

  /** In every history, an event puts nothing before a device on which no activity of its run can be updated. */
  lemma {:induction false} EventSkipsOthers(s: Settings, ticks: seq<Tick>, e: Event, quota: bool, now: int, d: nat)
    requires s.maxAttempts >= 1 && Possible(s, EMPTY, ticks) && GoesOn(After(s, EMPTY, ticks), e, quota, now)
    requires ShowsNone(After(s, EMPTY, ticks), e.runId, d)
    ensures var w := After(s, EMPTY, ticks);
            Waiting(Next(s, w, Tick(AcceptEvent(e, quota), now)).rows, LiveKey(e.runId, d)) == Waiting(w.rows, LiveKey(e.runId, d))
  {
    var w := After(s, EMPTY, ticks);
    var run := Apply(w.runs[e.runId], e);
    HistoryKeeps(s, EMPTY, ticks) by { EmptyFits(s); }
    assert forall i :: 0 <= i < |w.rows| ==> RowFits(w.rows[i], w.runs, s.maxAttempts);
    ApplyKeepsId(w.runs[e.runId], e);
    ScheduledSkips(s, w.(runs := w.runs[e.runId := run]), run, ByEvent(e.kind), w.runs[e.runId].progress, quota, now, d);
  }

  // A machine with a new name.

  /** Every activity of a run that goes on is told the new name at once, and so are the starts that wait. */
  lemma {:induction false} NameReachesActivities(s: Settings, w: World, runId: Uuid, quota: bool, now: int, b: nat)
    requires Enabled(w, Tick(RenameMachine(runId, quota), now)) && b < |w.bindings| && IsShown(w.bindings[b], runId)
    ensures var after, run := Next(s, w, Tick(RenameMachine(runId, quota), now)), w.runs[runId];
            var told := Waiting(after.rows, LiveKey(runId, w.bindings[b].device));
            && told.Some? && told.value.kind == LIVE_UPDATE && told.value.availableAt <= now
            && told.value.payload == LiveState(if run.lastSeq == 0 then 1 else run.lastSeq, Seconds(now), Seconds(run.updatedAt + 60_000_000))
            && (run.attention in {WARNING, ACTION_REQUIRED} ==> told.value.priority >= 10)
  {
    var run := w.runs[runId];
    var at := ScheduledReaches(s, w, run, MachineRenamed, run.progress, quota, now, b);
  }

  /** A machine can be renamed for exactly its runs that go on. */
  lemma {:induction false} NameIsTold(w: World, runId: Uuid, quota: bool, now: int)
    requires runId in w.runs ==> w.runs[runId].id == runId
    ensures Enabled(w, Tick(RenameMachine(runId, quota), now)) <==>
            runId in w.runs && w.runs[runId].status !in {SUCCEEDED, FAILED, CANCELLED, LOST}
  {
  }

  lemma {:induction false} NameReachesStarts(s: Settings, w: World, runId: Uuid, quota: bool, now: int, i: nat)
    requires Enabled(w, Tick(RenameMachine(runId, quota), now)) && i < |w.rows|
    requires w.rows[i].kind == LIVE_START && w.rows[i].state == PENDING && w.rows[i].key.StartKey?
    ensures var after := Next(s, w, Tick(RenameMachine(runId, quota), now)).rows; i < |after| && StartTold(w.rows[i], after[i], w.runs[runId], now)
  {
    ScheduledStart(s, w, w.runs[runId], MachineRenamed, w.runs[runId].progress, quota, now, i);
  }

  // A run that is registered again.

  /** Registering a run again gives it the five columns that the request has, touches nothing else, and tells nobody. */
  lemma {:induction false} PutAgainTells(s: Settings, w: World, runId: Uuid, title: string, source: string, health: string, attention: Attention,
                                         policy: LivePolicy, now: int)
    requires Enabled(w, Tick(PutAgain(runId, title, source, health, attention, policy), now))
    ensures var after, before := Next(s, w, Tick(PutAgain(runId, title, source, health, attention, policy), now)), w.runs[runId];
            && runId in after.runs && after == w.(runs := after.runs)
            && (forall id :: id != runId ==> (id in after.runs <==> id in w.runs) && (id in w.runs ==> after.runs[id] == w.runs[id]))
            && var run := after.runs[runId];
            && run.title == title && run.source == source && run.health == health && run.attention == attention && run.policy == policy
            && run == before.(title := run.title, source := run.source, health := run.health, attention := run.attention, policy := run.policy)
  {
  }

  /** Pairing and settings bring about any devices with any subscriptions. */
  lemma {:induction false} AnyDevices(s: Settings, devices: seq<Device>, subscriptions: set<(string, nat)>, now: int)
    ensures var ticks := [Tick(Configure(devices, subscriptions), now)];
            && Possible(s, EMPTY, ticks)
            && After(s, EMPTY, ticks).devices == devices && After(s, EMPTY, ticks).subscriptions == subscriptions
  {
    var ticks := [Tick(Configure(devices, subscriptions), now)];
    assert Possible(s, Next(s, EMPTY, ticks[0]), ticks[1..]);
  }
}
