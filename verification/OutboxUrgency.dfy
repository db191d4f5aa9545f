/**
 The order in which pushes are delivered (server/app/outbox.py: process_one), and how
 urgent the pushes of a run are (server/app/services.py: _priority).
 */
module OutboxUrgency {
  import opened Wrappers
  import opened Events
  import opened Ingest
  import opened Outbox
  import opened OutboxRuns

  // The row that is taken.

  /** The row waits and its time has come. */
  predicate IsReady(r: Row, now: int) {
    r.state == PENDING && r.availableAt <= now
  }

  /**
   The row is ready; no ready row has a higher priority, of those with the same priority
   none became available earlier, and of those none was created earlier.
   */
  predicate MostUrgent(rows: seq<Row>, i: nat, now: int) {
    && i < |rows| && IsReady(rows[i], now)
    && forall j :: 0 <= j < |rows| && IsReady(rows[j], now) ==>
         && rows[j].priority <= rows[i].priority
         && (rows[j].priority == rows[i].priority ==> rows[i].availableAt <= rows[j].availableAt)
         && (rows[j].priority == rows[i].priority && rows[j].availableAt == rows[i].availableAt ==> rows[i].createdAt <= rows[j].createdAt)
  }

  lemma {:induction false} HeadIsMostUrgent(rows: seq<Row>, i: nat, now: int)
    ensures IsHead(rows, i, now) <==> MostUrgent(rows, i, now)
  {
    if IsHead(rows, i, now) {
      forall j | 0 <= j < |rows| && IsReady(rows[j], now)
        ensures rows[j].priority <= rows[i].priority
        ensures rows[j].priority == rows[i].priority ==> rows[i].availableAt <= rows[j].availableAt
        ensures rows[j].priority == rows[i].priority && rows[j].availableAt == rows[i].availableAt ==> rows[i].createdAt <= rows[j].createdAt
      {
        assert Due(rows[j], now);
      }
    }
    if MostUrgent(rows, i, now) {
      forall j | 0 <= j < |rows| && Due(rows[j], now) ensures !Before(rows[j], rows[i]) {
        assert IsReady(rows[j], now);
      }
    }
  }

  // Priorities.

  /** Only updates of an activity can be routine. */
  predicate Urgent(kind: PushKind, priority: int) {
    (priority == 5 || priority == 10) && (kind != LIVE_UPDATE ==> priority == 10)
  }

  predicate AllUrgent(rows: seq<Row>) {
    forall i :: 0 <= i < |rows| ==> Urgent(rows[i].kind, rows[i].priority)
  }

  predicate PushesUrgent(pushes: seq<Push>) {
    forall i :: 0 <= i < |pushes| ==> Urgent(pushes[i].kind, pushes[i].priority)
  }

  lemma {:induction false} CoalescedUrgent(rows: seq<Row>, p: Push, now: int)
    requires AllUrgent(rows) && Urgent(p.kind, p.priority)
    ensures AllUrgent(Coalesced(rows, p, now))
  {
  }

  lemma {:induction false} CoalescedAllUrgent(rows: seq<Row>, pushes: seq<Push>, now: int)
    requires AllUrgent(rows) && PushesUrgent(pushes)
    ensures AllUrgent(CoalescedAll(rows, pushes, now))
    decreases |pushes|
  {
    if pushes != [] {
      var n := |pushes| - 1;
      CoalescedAllUrgent(rows, pushes[..n], now);
      CoalescedUrgent(CoalescedAll(rows, pushes[..n], now), pushes[n], now);
    }
  }

  lemma {:induction false} StartsUrgent(s: Settings, w: World, run: Run, now: int, n: nat)
    requires n <= |w.devices|
    ensures PushesUrgent(StartPushes(s, w, run, now, n))
  {
    if n > 0 { StartsUrgent(s, w, run, now, n - 1); }
  }

  lemma {:induction false} NotesUrgent(w: World, note: Note, id: nat, now: int, n: nat)
    requires n <= |w.devices|
    ensures PushesUrgent(NotePushes(w, note, id, now, n))
  {
    if n > 0 { NotesUrgent(w, note, id, now, n - 1); }
  }

  lemma {:induction false} LivesUrgent(s: Settings, w: World, run: Run, cause: Cause, previous: Option<Progress>, now: int, n: nat)
    requires n <= |w.bindings|
    ensures PushesUrgent(LivePushes(s, w, run, cause, previous, now, n))
  {
    if n > 0 { LivesUrgent(s, w, run, cause, previous, now, n - 1); }
  }

  lemma {:induction false} NotifiedUrgent(w: World, note: Note, quota: bool, now: int)
    requires AllUrgent(w.rows)
    ensures AllUrgent(Notified(w, note, quota, now).rows)
  {
    NotesUrgent(w, note, |w.notes|, now, |w.devices|);
    CoalescedAllUrgent(w.rows, NotePushes(w, note, |w.notes|, now, |w.devices|), now);
  }

  lemma {:induction false} ScheduledUrgent(s: Settings, w: World, run: Run, cause: Cause, previous: Option<Progress>, quota: bool, now: int)
    requires AllUrgent(w.rows)
    ensures AllUrgent(Scheduled(s, w, run, cause, previous, quota, now).rows)
  {
    if Starts(cause) {
      StartsUrgent(s, w, run, now, |w.devices|);
      CoalescedAllUrgent(w.rows, StartPushes(s, w, run, now, |w.devices|), now);
    } else {
      var restarted := w.(rows := Restarted(w.rows, run, now));
      assert AllUrgent(restarted.rows);
      if IsTerminal(run.status) { FellBackUrgent(restarted, run, quota, now); }
      var ended := if IsTerminal(run.status) then FellBack(restarted, run, quota, now) else restarted;
      LivesUrgent(s, ended, run, cause, previous, now, |ended.bindings|);
      CoalescedAllUrgent(ended.rows, LivePushes(s, ended, run, cause, previous, now, |ended.bindings|), now);
    }
  }

  lemma {:induction false} FellBackUrgent(w: World, run: Run, quota: bool, now: int)
    requires AllUrgent(w.rows)
    ensures AllUrgent(FellBack(w, run, quota, now).rows)
  {
    match FallbackLevel(w.rows, run)
    case Some(level) => NotifiedUrgent(w, Note(run.workspaceId, Some(run.machineId), Some(run.id), level, Fallback(run.id)), quota, now);
    case None =>
  }

  lemma {:induction false} ProcessedUrgent(s: Settings, w: World, i: nat, outcome: Outcome, now: int)
    requires AllUrgent(w.rows) && i < |w.rows|
    ensures AllUrgent(Processed(s, w, i, outcome, now).rows)
  {
    var after := Processed(s, w, i, outcome, now).rows;
    assert |after| == |w.rows| && after[i].kind == w.rows[i].kind && after[i].priority == w.rows[i].priority;
    assert forall k :: 0 <= k < |w.rows| && k != i ==> after[k] == w.rows[k];
  }

  lemma {:induction false} StepUrgent(s: Settings, w: World, t: Tick)
    requires AllUrgent(w.rows) && Enabled(w, t)
    ensures AllUrgent(Next(s, w, t).rows)
  {
    match t.step
    case AcceptEvent(e, quota) =>
      var run := Apply(w.runs[e.runId], e);
      ScheduledUrgent(s, w.(runs := w.runs[e.runId := run]), run, ByEvent(e.kind), w.runs[e.runId].progress, quota, t.now);
    case RenameMachine(runId, quota) =>
      ScheduledUrgent(s, w, w.runs[runId], MachineRenamed, w.runs[runId].progress, quota, t.now);
    case Notify(note, quota) => NotifiedUrgent(w, note, quota, t.now);
    case ProcessOne(i, outcome) => ProcessedUrgent(s, w, i, outcome, t.now);
    case RegisterToken(runId, device, activity, _) =>
      var (bindings, i) := WithBinding(w.bindings, runId, device, activity);
      CoalescedUrgent(w.rows, BindingPush(w.runs[runId], i, bindings[i].device, t.now), t.now);
    case ReportActivity(device, report) =>
      var (bindings, i) := WithBinding(w.bindings, report.runId, device, report.activity);
      CoalescedUrgent(w.rows, BindingPush(w.runs[report.runId], i, bindings[i].device, t.now), t.now);
    case _ =>
  }

  lemma {:induction false} HistoryUrgent(s: Settings, w: World, ticks: seq<Tick>)
    requires AllUrgent(w.rows) && Possible(s, w, ticks)
    ensures AllUrgent(After(s, w, ticks).rows)
    decreases |ticks|
  {
    if ticks != [] {
      StepUrgent(s, w, ticks[0]);
      HistoryUrgent(s, Next(s, w, ticks[0]), ticks[1..]);
    }
  }

  /**
   In every history a routine update is delivered only when no start or end of an activity
   and no notification is ready.
   */
  lemma {:induction false} UrgentComesFirst(s: Settings, ticks: seq<Tick>, i: nat, outcome: Outcome, now: int, j: nat)
    requires Possible(s, EMPTY, ticks) && Enabled(After(s, EMPTY, ticks), Tick(ProcessOne(i, outcome), now))
    requires var rows := After(s, EMPTY, ticks).rows; j < |rows| && IsReady(rows[j], now) && rows[j].kind != LIVE_UPDATE
    ensures var rows := After(s, EMPTY, ticks).rows; MostUrgent(rows, i, now) && rows[i].priority == rows[j].priority == 10
  {
    HistoryUrgent(s, EMPTY, ticks);
    var rows := After(s, EMPTY, ticks).rows;
    HeadIsMostUrgent(rows, i, now);
    assert Urgent(rows[i].kind, rows[i].priority) && Urgent(rows[j].kind, rows[j].priority);
  }

  // What an accepted event puts into the outbox.

  /** The row that waits under a key shows a payload, at least as urgent and at least as soon as asked for. */
  predicate Waits(rows: seq<Row>, key: Key, kind: PushKind, payload: LiveState, priority: int, at: int) {
    var i := FindPending(rows, key);
    i < |rows| && rows[i].kind == kind && rows[i].payload == payload && rows[i].priority >= priority && rows[i].availableAt <= at
  }

  /** Another row does not change which row waits under a key. */
  lemma {:induction false} FoundStays(rows: seq<Row>, p: Push, now: int, key: Key)
    requires p.key != key
    ensures var after := Coalesced(rows, p, now);
            var i, j := FindPending(rows, key), FindPending(after, key);
            (i < |rows| ==> j == i && after[j] == rows[i]) && (i == |rows| ==> j == |after|)
  {
    var after := Coalesced(rows, p, now);
    var i, k := FindPending(rows, key), FindPending(rows, p.key);
    assert forall x :: 0 <= x < |rows| && x != k ==> after[x] == rows[x];
    if i < |rows| {
      assert IsPending(after[i], key);
      assert forall x :: 0 <= x < i ==> !IsPending(after[x], key);
    } else {
      assert forall x :: 0 <= x < |after| ==> !IsPending(after[x], key);
    }
  }

  lemma {:induction false} FoundIsRefreshed(rows: seq<Row>, p: Push, now: int)
    ensures var after := Coalesced(rows, p, now);
            var i, j := FindPending(rows, p.key), FindPending(after, p.key);
            j < |after| && after[j] == if i < |rows| then Refreshed(rows[i], p, now) else NewRow(p, now)
  {
    var after := Coalesced(rows, p, now);
    var i := FindPending(rows, p.key);
    assert IsPending(after[i], p.key);
    assert forall x :: 0 <= x < i ==> !IsPending(after[x], p.key);
  }

  /** Pushes under one key show the same. */
  predicate SameShown(pushes: seq<Push>, key: Key, kind: PushKind, payload: LiveState) {
    forall j :: 0 <= j < |pushes| && pushes[j].key == key ==> pushes[j].kind == kind && pushes[j].payload == payload
  }

  lemma {:induction false} PushWaits(rows: seq<Row>, pushes: seq<Push>, now: int, k: nat)
    requires k < |pushes| && SameShown(pushes, pushes[k].key, pushes[k].kind, pushes[k].payload)
    ensures Waits(CoalescedAll(rows, pushes, now), pushes[k].key, pushes[k].kind, pushes[k].payload, pushes[k].priority, pushes[k].availableAt)
    decreases |pushes|
  {
    var n, p := |pushes| - 1, pushes[k];
    var before := CoalescedAll(rows, pushes[..n], now);
    if pushes[n].key == p.key { FoundIsRefreshed(before, pushes[n], now); } else { FoundStays(before, pushes[n], now, p.key); }
    if k < n {
      assert forall j :: 0 <= j < n ==> pushes[..n][j] == pushes[j];
      PushWaits(rows, pushes[..n], now, k);
    }
  }

  lemma {:induction false} LivesSameShown(s: Settings, w: World, run: Run, cause: Cause, previous: Option<Progress>, now: int, n: nat, key: Key)
    requires n <= |w.bindings|
    ensures SameShown(LivePushes(s, w, run, cause, previous, now, n), key, if IsTerminal(run.status) then LIVE_END else LIVE_UPDATE, LivePayload(run, now))
  {
    if n > 0 { LivesSameShown(s, w, run, cause, previous, now, n - 1, key); }
  }

  /** The push for a binding is among the pushes. */
  lemma {:induction false} PushForBinding(s: Settings, w: World, run: Run, cause: Cause, previous: Option<Progress>, now: int, n: nat, b: nat)
    returns (k: nat)
    requires b < n <= |w.bindings| && GetsLive(w.bindings[b], run.id)
    ensures k < |LivePushes(s, w, run, cause, previous, now, n)|
    ensures LivePushes(s, w, run, cause, previous, now, n)[k] == LivePush(s, w, run, b, cause, previous, now)
  {
    if b < n - 1 {
      k := PushForBinding(s, w, run, cause, previous, now, n - 1, b);
    } else {
      k := |LivePushes(s, w, run, cause, previous, now, n - 1)|;
    }
  }

  /** An activity of the run is shown on a device and can be updated. */
  predicate IsShown(b: Binding, runId: Uuid) {
    b.runId == runId && b.state in {ACTIVE, STALE} && !b.invalidated && b.token
  }

  function Share(p: Option<Progress>): Option<real> {
    if p.Some? then p.value.fraction else None
  }

  /** What makes an update urgent: attention, failure, a new phase, the first progress, or a tenth more or less of it. */
  predicate MustHurry(run: Run, kind: EventType, previous: Option<Progress>) {
    || run.attention in {WARNING, ACTION_REQUIRED} || run.status in {SUCCEEDED, FAILED, CANCELLED, LOST} || kind == RunPhaseChanged
    || (kind == RunProgress && (Share(previous).None?
        || (Share(run.progress).Some? && (Share(run.progress).value - Share(previous).value >= 0.1
                                          || Share(previous).value - Share(run.progress).value >= 0.1))))
  }

  function LiveKind(run: Run): PushKind {
    if IsTerminal(run.status) then LIVE_END else LIVE_UPDATE
  }

  lemma {:induction false} ScheduledReaches(s: Settings, w: World, run: Run, cause: Cause, previous: Option<Progress>, quota: bool, now: int,
                                            b: nat) returns (at: int)
    requires !Starts(cause) && b < |w.bindings| && GetsLive(w.bindings[b], run.id)
    ensures Waits(Scheduled(s, w, run, cause, previous, quota, now).rows, LiveKey(run.id, w.bindings[b].device), LiveKind(run),
                  LivePayload(run, now), Priority(run, LiveKind(run), Some(cause), previous), at)
    ensures cause != ByEvent(RunProgress) || IsTerminal(run.status) ==> at == now
  {
    var restarted := w.(rows := Restarted(w.rows, run, now));
    var ended := if IsTerminal(run.status) then FellBack(restarted, run, quota, now) else restarted;
    var pushes := LivePushes(s, ended, run, cause, previous, now, |ended.bindings|);
    assert ended.bindings == w.bindings;
    var k := PushForBinding(s, ended, run, cause, previous, now, |ended.bindings|, b);
    LivesSameShown(s, ended, run, cause, previous, now, |ended.bindings|, pushes[k].key);
    PushWaits(ended.rows, pushes, now, k);
    at := pushes[k].availableAt;
  }

  lemma {:induction false} HurryIsTen(run: Run, kind: EventType, previous: Option<Progress>)
    ensures Priority(run, LiveKind(run), Some(ByEvent(kind)), previous) == if MustHurry(run, kind, previous) then 10 else 5
  {
  }

  // Rows that did not wait before.

  predicate NoneWaits(rows: seq<Row>, key: Key) {
    forall i :: 0 <= i < |rows| ==> !IsPending(rows[i], key)
  }

  predicate AllUnder(pushes: seq<Push>, key: Key, priority: int) {
    forall i :: 0 <= i < |pushes| && pushes[i].key == key ==> pushes[i].priority == priority
  }

  /** The rows that wait under a key have a priority. */
  predicate WaitAt(rows: seq<Row>, key: Key, priority: int) {
    forall i :: 0 <= i < |rows| && IsPending(rows[i], key) ==> rows[i].priority == priority
  }

  lemma {:induction false} CoalescedAt(rows: seq<Row>, p: Push, now: int, key: Key, priority: int)
    requires WaitAt(rows, key, priority) && (p.key == key ==> p.priority == priority)
    ensures WaitAt(Coalesced(rows, p, now), key, priority)
    ensures p.key != key && NoneWaits(rows, key) ==> NoneWaits(Coalesced(rows, p, now), key)
  {
  }

  lemma {:induction false} CoalescedAllAt(rows: seq<Row>, pushes: seq<Push>, now: int, key: Key, priority: int)
    requires WaitAt(rows, key, priority) && AllUnder(pushes, key, priority)
    ensures WaitAt(CoalescedAll(rows, pushes, now), key, priority)
    decreases |pushes|
  {
    if pushes != [] {
      var n := |pushes| - 1;
      CoalescedAllAt(rows, pushes[..n], now, key, priority);
      CoalescedAt(CoalescedAll(rows, pushes[..n], now), pushes[n], now, key, priority);
    }
  }

  lemma {:induction false} LivesAt(s: Settings, w: World, run: Run, cause: Cause, previous: Option<Progress>, now: int, n: nat, key: Key)
    requires n <= |w.bindings|
    ensures AllUnder(LivePushes(s, w, run, cause, previous, now, n), key, Priority(run, LiveKind(run), Some(cause), previous))
  {
    if n > 0 { LivesAt(s, w, run, cause, previous, now, n - 1, key); }
  }

  lemma {:induction false} NotesElsewhere(w: World, note: Note, id: nat, now: int, n: nat, key: Key, priority: int)
    requires n <= |w.devices| && !key.NoteKey?
    ensures AllUnder(NotePushes(w, note, id, now, n), key, priority)
  {
    if n > 0 { NotesElsewhere(w, note, id, now, n - 1, key, priority); }
  }

  /** A row that did not wait before has the priority of the event. */
  lemma {:induction false} ScheduledAt(s: Settings, w: World, run: Run, cause: Cause, previous: Option<Progress>, quota: bool, now: int, key: Key)
    requires !Starts(cause) && key.LiveKey? && NoneWaits(w.rows, key)
    ensures WaitAt(Scheduled(s, w, run, cause, previous, quota, now).rows, key, Priority(run, LiveKind(run), Some(cause), previous))
  {
    var priority := Priority(run, LiveKind(run), Some(cause), previous);
    var restarted := w.(rows := Restarted(w.rows, run, now));
    assert NoneWaits(restarted.rows, key) by {
      assert forall i :: 0 <= i < |w.rows| ==> restarted.rows[i].key == w.rows[i].key && (restarted.rows[i].state == PENDING ==> w.rows[i].state == PENDING);
    }
    var ended := if IsTerminal(run.status) then FellBack(restarted, run, quota, now) else restarted;
    assert WaitAt(ended.rows, key, priority) by {
      if IsTerminal(run.status) { FellBackAt(restarted, run, quota, now, key, priority); }
    }
    LivesAt(s, ended, run, cause, previous, now, |ended.bindings|, key);
    CoalescedAllAt(ended.rows, LivePushes(s, ended, run, cause, previous, now, |ended.bindings|), now, key, priority);
  }

  lemma {:induction false} FellBackAt(w: World, run: Run, quota: bool, now: int, key: Key, priority: int)
    requires WaitAt(w.rows, key, priority) && key.LiveKey?
    ensures WaitAt(FellBack(w, run, quota, now).rows, key, priority)
  {
    match FallbackLevel(w.rows, run)
    case Some(level) =>
      var note := Note(run.workspaceId, Some(run.machineId), Some(run.id), level, Fallback(run.id));
      NotesElsewhere(w, note, |w.notes|, now, |w.devices|, key, priority);
      CoalescedAllAt(w.rows, NotePushes(w, note, |w.notes|, now, |w.devices|), now, key, priority);
    case None =>
  }

  /** An event is accepted that does not start its run. */
  predicate GoesOn(w: World, e: Event, quota: bool, now: int) {
    Enabled(w, Tick(AcceptEvent(e, quota), now)) && e.kind != RunStarting && e.kind != RunStarted
  }

  lemma {:induction false} EventWaits(s: Settings, w: World, e: Event, quota: bool, now: int, b: nat) returns (at: int)
    requires GoesOn(w, e, quota, now) && b < |w.bindings| && IsShown(w.bindings[b], e.runId)
    ensures var after := Next(s, w, Tick(AcceptEvent(e, quota), now));
            var run, key := after.runs[e.runId], LiveKey(e.runId, w.bindings[b].device);
            var priority := if MustHurry(run, e.kind, w.runs[e.runId].progress) then 10 else 5;
            && run.lastSeq == e.seqNo
            && Waits(after.rows, key, LiveKind(run), LivePayload(run, now), priority, at)
            && (NoneWaits(w.rows, key) ==> WaitAt(after.rows, key, priority))
    ensures e.kind != RunProgress ==> at == now
  {
    var run := Apply(w.runs[e.runId], e);
    var with, key := w.(runs := w.runs[e.runId := run]), LiveKey(e.runId, w.bindings[b].device);
    AcceptedRun(w, e);
    HurryIsTen(run, e.kind, w.runs[e.runId].progress);
    at := ScheduledReaches(s, with, run, ByEvent(e.kind), w.runs[e.runId].progress, quota, now, b);
    if NoneWaits(w.rows, key) { ScheduledAt(s, with, run, ByEvent(e.kind), w.runs[e.runId].progress, quota, now, key); }
    RunsScheduled(s, with, run, ByEvent(e.kind), w.runs[e.runId].progress, quota, now);
  }

  lemma RunsScheduled(s: Settings, w: World, run: Run, cause: Cause, previous: Option<Progress>, quota: bool, now: int)
    ensures Scheduled(s, w, run, cause, previous, quota, now).runs == w.runs
  {
  }

  /**
   A push waits for an activity of the event's run: an end exactly if the run has ended, with
   the new state, at priority 10 if it must hurry and, if none waited, at 5 otherwise, and at
   once unless it is a mere progress.
   */
  predicate ActivityTold(before: World, after: World, e: Event, now: int, b: nat)
    requires b < |before.bindings| && e.runId in before.runs && e.runId in after.runs
  {
    var run, key := after.runs[e.runId], LiveKey(e.runId, before.bindings[b].device);
    var i, hurry := FindPending(after.rows, key), MustHurry(run, e.kind, before.runs[e.runId].progress);
    && i < |after.rows|
    && after.rows[i].kind == (if run.status in {SUCCEEDED, FAILED, CANCELLED, LOST} then LIVE_END else LIVE_UPDATE)
    && after.rows[i].payload == LiveState(e.seqNo, Seconds(now), Seconds(run.updatedAt + 60_000_000))
    && (hurry ==> after.rows[i].priority == 10)
    && (NoneWaits(before.rows, key) && !hurry ==> after.rows[i].priority == 5)
    && (e.kind != RunProgress ==> after.rows[i].availableAt <= now)
  }

  lemma {:induction false} EventTells(s: Settings, w: World, e: Event, quota: bool, now: int, b: nat)
    requires GoesOn(w, e, quota, now) && b < |w.bindings| && IsShown(w.bindings[b], e.runId) && AllUrgent(w.rows)
    ensures var after := Next(s, w, Tick(AcceptEvent(e, quota), now)); e.runId in after.runs && ActivityTold(w, after, e, now, b)
  {
    var at := EventWaits(s, w, e, quota, now, b);
    StepUrgent(s, w, Tick(AcceptEvent(e, quota), now));
    var after := Next(s, w, Tick(AcceptEvent(e, quota), now));
    ToldIfWaits(w, after, e, now, b, at);
  }

  lemma {:induction false} ToldIfWaits(before: World, after: World, e: Event, now: int, b: nat, at: int)
    requires b < |before.bindings| && e.runId in before.runs && e.runId in after.runs && AllUrgent(after.rows)
    requires var run, key := after.runs[e.runId], LiveKey(e.runId, before.bindings[b].device);
             var priority := if MustHurry(run, e.kind, before.runs[e.runId].progress) then 10 else 5;
             && run.lastSeq == e.seqNo >= 1
             && Waits(after.rows, key, LiveKind(run), LivePayload(run, now), priority, at)
             && (NoneWaits(before.rows, key) ==> WaitAt(after.rows, key, priority))
    requires e.kind != RunProgress ==> at == now
    ensures ActivityTold(before, after, e, now, b)
  {
    var run := after.runs[e.runId];
    LivePayloadIs(run, now);
    WaitingRow(after.rows, LiveKey(e.runId, before.bindings[b].device), LiveKind(run), LivePayload(run, now),
               if MustHurry(run, e.kind, before.runs[e.runId].progress) then 10 else 5, at);
  }

  /** After an event was accepted that does not start the run, every activity of the run that can be updated is told. */
  lemma {:induction false} EventReachesActivities(s: Settings, ticks: seq<Tick>, e: Event, quota: bool, now: int, b: nat)
    requires Possible(s, EMPTY, ticks) && GoesOn(After(s, EMPTY, ticks), e, quota, now)
    requires var w := After(s, EMPTY, ticks); b < |w.bindings| && IsShown(w.bindings[b], e.runId)
    ensures var w := After(s, EMPTY, ticks);
            var after := Next(s, w, Tick(AcceptEvent(e, quota), now));
            e.runId in after.runs && ActivityTold(w, after, e, now, b)
  {
    HistoryUrgent(s, EMPTY, ticks);
    EventTells(s, After(s, EMPTY, ticks), e, quota, now, b);
  }

  lemma {:induction false} WaitingRow(rows: seq<Row>, key: Key, kind: PushKind, payload: LiveState, priority: int, at: int)
    requires Waits(rows, key, kind, payload, priority, at) && AllUrgent(rows)
    ensures var i := FindPending(rows, key);
            && (priority == 10 ==> rows[i].priority == 10)
            && (WaitAt(rows, key, priority) ==> rows[i].priority == priority)
  {
    var i := FindPending(rows, key);
    assert Urgent(rows[i].kind, rows[i].priority) && IsPending(rows[i], key);
  }

  lemma LivePayloadIs(run: Run, now: int)
    requires run.lastSeq >= 1
    ensures LivePayload(run, now) == LiveState(run.lastSeq, Seconds(now), Seconds(run.updatedAt + 60_000_000))
  {
  }

  lemma AcceptedRun(w: World, e: Event)
    requires e.runId in w.runs && w.runs[e.runId].id == e.runId
    ensures Apply(w.runs[e.runId], e).id == e.runId && Apply(w.runs[e.runId], e).lastSeq == e.seqNo
  {
  }
}
