/**
 Which devices a notification and the start of a run reach (server/app/services.py:
 _schedule_notification_push, schedule_run_pushes), whatever has happened before.
 */
module OutboxReach {
  import opened Wrappers
  import opened Events
  import opened Ingest
  import opened Outbox
  import opened OutboxRuns
  import opened OutboxLaws
  import opened OutboxQuota
  import opened OutboxUrgency

  // Rows under a key.

  /** The row that waits under a key, if there is one. */
  function Waiting(rows: seq<Row>, key: Key): Option<Row> {
    var i := FindPending(rows, key);
    if i < |rows| then Some(rows[i]) else None
  }

  lemma {:induction false} WaitingAfter(rows: seq<Row>, p: Push, now: int, key: Key)
    ensures Waiting(Coalesced(rows, p, now), key) ==
            if p.key != key then Waiting(rows, key)
            else match Waiting(rows, key)
                 case Some(r) => Some(Refreshed(r, p, now))
                 case None => Some(NewRow(p, now))
  {
    if p.key == key { FoundIsRefreshed(rows, p, now); } else { FoundStays(rows, p, now, key); }
  }

  predicate NoneUnder(pushes: seq<Push>, key: Key) {
    forall i :: 0 <= i < |pushes| ==> pushes[i].key != key
  }

  lemma {:induction false} WaitingStays(rows: seq<Row>, pushes: seq<Push>, now: int, key: Key)
    requires NoneUnder(pushes, key)
    ensures Waiting(CoalescedAll(rows, pushes, now), key) == Waiting(rows, key)
    decreases |pushes|
  {
    if pushes != [] {
      var n := |pushes| - 1;
      WaitingStays(rows, pushes[..n], now, key);
      WaitingAfter(CoalescedAll(rows, pushes[..n], now), pushes[n], now, key);
    }
  }

  lemma CoalescedAllSnoc(rows: seq<Row>, pushes: seq<Push>, p: Push, now: int)
    ensures CoalescedAll(rows, pushes + [p], now) == Coalesced(CoalescedAll(rows, pushes, now), p, now)
    ensures CoalescedAll(rows, pushes + [], now) == CoalescedAll(rows, pushes, now)
  {
    assert (pushes + [p])[..|pushes|] == pushes && pushes + [] == pushes;
  }

  lemma {:induction false} LivesUnderNone(s: Settings, w: World, run: Run, cause: Cause, previous: Option<Progress>, now: int, n: nat, key: Key)
    requires n <= |w.bindings| && !key.LiveKey?
    ensures NoneUnder(LivePushes(s, w, run, cause, previous, now, n), key)
  {
    if n > 0 { LivesUnderNone(s, w, run, cause, previous, now, n - 1, key); }
  }

  // Notifications.

  /** The device is in the workspace, can be notified, has subscribed to the machine, and wants notifications of the level. */
  predicate IsNotified(w: World, note: Note, d: nat) {
    && d < |w.devices|
    && var device := w.devices[d];
    && device.workspaceId == note.workspaceId && !device.revoked && device.noteToken
    && (note.machineId == None || (note.machineId.value, d) in w.subscriptions)
    && match note.level {
         case InfoLevel => true
         case SuccessLevel => device.successOn
         case ErrorLevel => device.failureOn
       }
  }

  /** The row that waits for a device to be notified. */
  predicate Notifies(r: Row, note: Note, id: nat, d: nat, now: int) {
    && r.kind == NOTIFICATION && r.target == DeviceTarget(d) && r.runId == note.runId
    && r.priority == 10 && r.availableAt == now && r.state == PENDING && r.key == NoteKey(id, d) && r.attempts == 0
  }

  /** After the notification was made, a row waits for a device exactly if the device is to be notified. */
  predicate DeviceTold(w: World, rows: seq<Row>, note: Note, id: nat, d: nat, now: int) {
    match Waiting(rows, NoteKey(id, d))
    case Some(r) => IsNotified(w, note, d) && Notifies(r, note, id, d, now)
    case None => !IsNotified(w, note, d)
  }

  lemma WantsIfNotified(w: World, note: Note, d: nat)
    requires d < |w.devices|
    ensures WantsNote(w, note, d) <==> IsNotified(w, note, d)
  {
  }

  /** What one more push, if it is one, does to the row that waits under a key. */
  lemma {:induction false} OneMorePush(rows: seq<Row>, earlier: seq<Push>, pushes: seq<Push>, p: Push, wanted: bool, now: int, key: Key)
    requires pushes == earlier + if wanted then [p] else []
    ensures Waiting(CoalescedAll(rows, pushes, now), key) ==
            if !wanted || p.key != key then Waiting(CoalescedAll(rows, earlier, now), key)
            else match Waiting(CoalescedAll(rows, earlier, now), key)
                 case Some(r) => Some(Refreshed(r, p, now))
                 case None => Some(NewRow(p, now))
  {
    CoalescedAllSnoc(rows, earlier, p, now);
    WaitingAfter(CoalescedAll(rows, earlier, now), p, now, key);
  }

  lemma {:induction false} NoteRows(w: World, note: Note, id: nat, now: int, n: nat, d: nat)
    requires n <= |w.devices| && Waiting(w.rows, NoteKey(id, d)) == None
    ensures Waiting(CoalescedAll(w.rows, NotePushes(w, note, id, now, n), now), NoteKey(id, d))
            == if d < n && IsNotified(w, note, d) then Some(NewRow(NotePush(note, id, d, now), now)) else None
  {
    if n > 0 {
      NoteRows(w, note, id, now, n - 1, d);
      WantsIfNotified(w, note, n - 1);
      OneMorePush(w.rows, NotePushes(w, note, id, now, n - 1), NotePushes(w, note, id, now, n), NotePush(note, id, n - 1, now),
                  WantsNote(w, note, n - 1), now, NoteKey(id, d));
    } else {
      assert NotePushes(w, note, id, now, 0) == [];
    }
  }

  lemma {:induction false} NotedTells(w: World, note: Note, now: int, d: nat)
    requires Waiting(w.rows, NoteKey(|w.notes|, d)) == None
    ensures DeviceTold(w, CoalescedAll(w.rows, NotePushes(w, note, |w.notes|, now, |w.devices|), now), note, |w.notes|, d, now)
  {
    NoteRows(w, note, |w.notes|, now, |w.devices|, d);
  }

  /** Keys name notifications that were made. */
  predicate NotesKnown(rows: seq<Row>, n: nat) {
    forall i :: 0 <= i < |rows| && rows[i].key.NoteKey? ==> rows[i].key.note < n
  }

  predicate PushesKnown(pushes: seq<Push>, n: nat) {
    forall i :: 0 <= i < |pushes| && pushes[i].key.NoteKey? ==> pushes[i].key.note < n
  }

  lemma {:induction false} CoalescedAllKnown(rows: seq<Row>, pushes: seq<Push>, now: int, n: nat)
    requires NotesKnown(rows, n) && PushesKnown(pushes, n)
    ensures NotesKnown(CoalescedAll(rows, pushes, now), n)
    decreases |pushes|
  {
    if pushes != [] {
      CoalescedAllKnown(rows, pushes[..|pushes| - 1], now, n);
    }
  }

  lemma {:induction false} StartsKnown(s: Settings, w: World, run: Run, now: int, n: nat, notes: nat)
    requires n <= |w.devices|
    ensures PushesKnown(StartPushes(s, w, run, now, n), notes)
  {
    if n > 0 { StartsKnown(s, w, run, now, n - 1, notes); }
  }

  lemma {:induction false} LivesKnown(s: Settings, w: World, run: Run, cause: Cause, previous: Option<Progress>, now: int, n: nat, notes: nat)
    requires n <= |w.bindings|
    ensures PushesKnown(LivePushes(s, w, run, cause, previous, now, n), notes)
  {
    if n > 0 { LivesKnown(s, w, run, cause, previous, now, n - 1, notes); }
  }

  lemma {:induction false} OwnNotesKnown(w: World, note: Note, id: nat, now: int, n: nat)
    requires n <= |w.devices|
    ensures PushesKnown(NotePushes(w, note, id, now, n), id + 1)
  {
    if n > 0 { OwnNotesKnown(w, note, id, now, n - 1); }
  }

  lemma {:induction false} NotifiedKnown(w: World, note: Note, quota: bool, now: int)
    requires NotesKnown(w.rows, |w.notes|)
    ensures NotesKnown(Notified(w, note, quota, now).rows, |Notified(w, note, quota, now).notes|)
  {
    OwnNotesKnown(w, note, |w.notes|, now, |w.devices|);
    CoalescedAllKnown(w.rows, NotePushes(w, note, |w.notes|, now, |w.devices|), now, |w.notes| + 1);
  }

  lemma {:induction false} FellBackKnown(w: World, run: Run, quota: bool, now: int)
    requires NotesKnown(w.rows, |w.notes|)
    ensures NotesKnown(FellBack(w, run, quota, now).rows, |FellBack(w, run, quota, now).notes|)
  {
    match FallbackLevel(w.rows, run)
    case Some(level) => NotifiedKnown(w, Note(run.workspaceId, Some(run.machineId), Some(run.id), level, Fallback(run.id)), quota, now);
    case None =>
  }

  lemma {:induction false} ScheduledKnown(s: Settings, w: World, run: Run, cause: Cause, previous: Option<Progress>, quota: bool, now: int)
    requires NotesKnown(w.rows, |w.notes|)
    ensures var after := Scheduled(s, w, run, cause, previous, quota, now); NotesKnown(after.rows, |after.notes|)
  {
    if Starts(cause) {
      StartsKnown(s, w, run, now, |w.devices|, |w.notes|);
      CoalescedAllKnown(w.rows, StartPushes(s, w, run, now, |w.devices|), now, |w.notes|);
    } else {
      var restarted := w.(rows := Restarted(w.rows, run, now));
      assert NotesKnown(restarted.rows, |w.notes|);
      if IsTerminal(run.status) { FellBackKnown(restarted, run, quota, now); }
      var ended := if IsTerminal(run.status) then FellBack(restarted, run, quota, now) else restarted;
      LivesKnown(s, ended, run, cause, previous, now, |ended.bindings|, |ended.notes|);
      CoalescedAllKnown(ended.rows, LivePushes(s, ended, run, cause, previous, now, |ended.bindings|), now, |ended.notes|);
    }
  }

  lemma {:induction false} ProcessedKnown(s: Settings, w: World, i: nat, outcome: Outcome, now: int)
    requires NotesKnown(w.rows, |w.notes|) && i < |w.rows|
    ensures var after := Processed(s, w, i, outcome, now); NotesKnown(after.rows, |after.notes|)
  {
    var after := Processed(s, w, i, outcome, now).rows;
    assert |after| == |w.rows| && after[i].key == w.rows[i].key;
    assert forall k :: 0 <= k < |w.rows| && k != i ==> after[k] == w.rows[k];
  }

  lemma {:induction false} StepKnown(s: Settings, w: World, t: Tick)
    requires NotesKnown(w.rows, |w.notes|) && Enabled(w, t)
    ensures NotesKnown(Next(s, w, t).rows, |Next(s, w, t).notes|)
  {
    match t.step
    case AcceptEvent(e, quota) =>
      var run := Apply(w.runs[e.runId], e);
      ScheduledKnown(s, w.(runs := w.runs[e.runId := run]), run, ByEvent(e.kind), w.runs[e.runId].progress, quota, t.now);
    case RenameMachine(runId, quota) =>
      ScheduledKnown(s, w, w.runs[runId], MachineRenamed, w.runs[runId].progress, quota, t.now);
    case Notify(note, quota) => NotifiedKnown(w, note, quota, t.now);
    case ProcessOne(i, outcome) => ProcessedKnown(s, w, i, outcome, t.now);
    case _ =>
  }

  lemma {:induction false} HistoryKnown(s: Settings, w: World, ticks: seq<Tick>)
    requires NotesKnown(w.rows, |w.notes|) && Possible(s, w, ticks)
    ensures NotesKnown(After(s, w, ticks).rows, |After(s, w, ticks).notes|)
    decreases |ticks|
  {
    if ticks != [] {
      StepKnown(s, w, ticks[0]);
      HistoryKnown(s, Next(s, w, ticks[0]), ticks[1..]);
    }
  }

  lemma {:induction false} UnknownNote(rows: seq<Row>, n: nat, d: nat)
    requires NotesKnown(rows, n)
    ensures Waiting(rows, NoteKey(n, d)) == None
  {
  }

  /** The fallback of a run that ends: the same devices are told after the live pushes as well. */
  lemma {:induction false} ScheduledTells(s: Settings, w: World, run: Run, cause: Cause, previous: Option<Progress>, quota: bool, now: int, d: nat)
    requires NotesKnown(w.rows, |w.notes|) && |Scheduled(s, w, run, cause, previous, quota, now).notes| > |w.notes|
    ensures var after := Scheduled(s, w, run, cause, previous, quota, now);
            |after.notes| == |w.notes| + 1 && DeviceTold(w, after.rows, after.notes[|w.notes|], |w.notes|, d, now)
  {
    var restarted := w.(rows := Restarted(w.rows, run, now));
    assert NotesKnown(restarted.rows, |w.notes|);
    UnknownNote(restarted.rows, |w.notes|, d);
    var ended := FellBack(restarted, run, quota, now);
    var note := ended.notes[|w.notes|];
    NotedTells(restarted, note, now, d);
    assert DeviceTold(w, ended.rows, note, |w.notes|, d, now);
    var pushes := LivePushes(s, ended, run, cause, previous, now, |ended.bindings|);
    LivesUnderNone(s, ended, run, cause, previous, now, |ended.bindings|, NoteKey(|w.notes|, d));
    WaitingStays(ended.rows, pushes, now, NoteKey(|w.notes|, d));
  }

  lemma {:induction false} StepTells(s: Settings, w: World, t: Tick, d: nat)
    requires NotesKnown(w.rows, |w.notes|) && Enabled(w, t) && |Next(s, w, t).notes| > |w.notes|
    ensures var after := Next(s, w, t);
            |after.notes| == |w.notes| + 1 && DeviceTold(w, after.rows, after.notes[|w.notes|], |w.notes|, d, t.now)
  {
    match t.step
    case AcceptEvent(e, quota) =>
      var run := Apply(w.runs[e.runId], e);
      ScheduledTells(s, w.(runs := w.runs[e.runId := run]), run, ByEvent(e.kind), w.runs[e.runId].progress, quota, t.now, d);
    case RenameMachine(runId, quota) =>
      ScheduledTells(s, w, w.runs[runId], MachineRenamed, w.runs[runId].progress, quota, t.now, d);
    case Notify(note, quota) =>
      UnknownNote(w.rows, |w.notes|, d);
      NotedTells(w, note, t.now, d);
    case ProcessOne(i, outcome) => ProcessedNotes(s, w, i, outcome, t.now);
    case _ =>
  }

  /** Whatever step makes a notification in whatever history: exactly the devices that are to be notified have a push waiting. */
  lemma {:induction false} NoteReachesDevices(s: Settings, ticks: seq<Tick>, t: Tick, d: nat)
    requires Possible(s, EMPTY, ticks) && Enabled(After(s, EMPTY, ticks), t)
    requires |Next(s, After(s, EMPTY, ticks), t).notes| > |After(s, EMPTY, ticks).notes|
    ensures var w := After(s, EMPTY, ticks);
            var after := Next(s, w, t);
            |after.notes| == |w.notes| + 1 && DeviceTold(w, after.rows, after.notes[|w.notes|], |w.notes|, d, t.now)
  {
    HistoryKnown(s, EMPTY, ticks);
    StepTells(s, After(s, EMPTY, ticks), t, d);
  }

  /**
   When a run fails or is lost, has no sent start and no earlier fallback, and the limit of
   the day is not reached, a push waits for a device exactly if it is in the workspace of the
   run, can be notified, has subscribed to its machine and wants to hear of failures.
   */
  lemma {:induction false} FailureReachesDevices(s: Settings, limit: nat, ticks: seq<Tick>, t: Tick, d: nat)
    requires s.maxAttempts >= 1 && WithinQuota(s, limit, EMPTY, ticks, map[]) && Possible(s, EMPTY, ticks)
    requires var w := After(s, EMPTY, ticks); Enabled(w, t) && Told(limit, w, t, BookedAll(s, EMPTY, ticks, map[]))
    requires t.step.AcceptEvent? && (t.step.e.kind == RunFailed || t.step.e.kind == RunLost)
    requires var w := After(s, EMPTY, ticks); var run := w.runs[t.step.e.runId];
             && !StartSent(w.rows, run.id) && CountNotes(w.notes, run.workspaceId, Fallback(run.id)) == 0
             && Made(s, EMPTY, ticks, run.workspaceId, DayOf(t.now)) < limit
    ensures var w := After(s, EMPTY, ticks);
            var after, run := Next(s, w, t), w.runs[t.step.e.runId];
            (exists i :: 0 <= i < |after.rows| && after.rows[i].state == PENDING && after.rows[i].key == NoteKey(|w.notes|, d)
                         && after.rows[i].kind == NOTIFICATION && after.rows[i].target == DeviceTarget(d) && after.rows[i].runId == Some(run.id))
            <==> && d < |w.devices| && w.devices[d].workspaceId == run.workspaceId && !w.devices[d].revoked && w.devices[d].noteToken
                 && (run.machineId, d) in w.subscriptions && w.devices[d].failureOn
  {
    var w := After(s, EMPTY, ticks);
    var after, run := Next(s, w, t), w.runs[t.step.e.runId];
    FailureIsToldWithinQuota(s, limit, ticks, t);
    NoteReachesDevices(s, ticks, t, d);
    FailureNote(s, ticks, t);
    var i := FindPending(after.rows, NoteKey(|w.notes|, d));
    assert i < |after.rows| ==> IsPending(after.rows[i], NoteKey(|w.notes|, d));
  }

  /** The notification that such a step makes. */
  lemma {:induction false} FailureNote(s: Settings, ticks: seq<Tick>, t: Tick)
    requires s.maxAttempts >= 1 && Possible(s, EMPTY, ticks) && Enabled(After(s, EMPTY, ticks), t)
    requires t.step.AcceptEvent? && (t.step.e.kind == RunFailed || t.step.e.kind == RunLost)
    requires |Next(s, After(s, EMPTY, ticks), t).notes| > |After(s, EMPTY, ticks).notes|
    ensures var w := After(s, EMPTY, ticks);
            var run := w.runs[t.step.e.runId];
            |Next(s, w, t).notes| == |w.notes| + 1
            && Next(s, w, t).notes[|w.notes|] == Note(run.workspaceId, Some(run.machineId), Some(run.id), ErrorLevel, Fallback(run.id))
  {
    var w, e := After(s, EMPTY, ticks), t.step.e;
    var run := Apply(w.runs[e.runId], e);
    EmptyFits(s);
    HistoryKeeps(s, EMPTY, ticks);
    ApplyKeepsId(w.runs[e.runId], e);
    FallbackStep(s, w.(runs := w.runs[e.runId := run]), run, ByEvent(e.kind), w.runs[e.runId].progress, t.step.quota, t.now);
  }

  /**
   When a run ends, a fallback notification is made exactly if the quota allows it, no start
   of an activity was sent for the run, it has no fallback yet, and it failed, was lost, or
   succeeded more than five seconds after it started; a failure is told as an error.
   */
  lemma {:induction false} FallbackExactly(s: Settings, ticks: seq<Tick>, e: Event, quota: bool, now: int)
    requires s.maxAttempts >= 1 && Possible(s, EMPTY, ticks) && Enabled(After(s, EMPTY, ticks), Tick(AcceptEvent(e, quota), now))
    requires e.kind in {RunSucceeded, RunFailed, RunCancelled, RunLost}
    ensures var w := After(s, EMPTY, ticks);
            var after, run := Next(s, w, Tick(AcceptEvent(e, quota), now)), w.runs[e.runId];
            var failed, lasted := e.kind == RunFailed || e.kind == RunLost, run.startedAt.Some? && e.at - run.startedAt.value > 5_000_000;
            after.notes ==
              if quota && !StartSent(w.rows, e.runId) && CountNotes(w.notes, run.workspaceId, Fallback(e.runId)) == 0
                 && (failed || (e.kind == RunSucceeded && lasted))
              then w.notes + [Note(run.workspaceId, Some(run.machineId), Some(e.runId), if failed then ErrorLevel else SuccessLevel, Fallback(e.runId))]
              else w.notes
  {
    var w := After(s, EMPTY, ticks);
    var run := Apply(w.runs[e.runId], e);
    EmptyFits(s);
    HistoryKeeps(s, EMPTY, ticks);
    ApplyKeepsId(w.runs[e.runId], e);
    FallbackStep(s, w.(runs := w.runs[e.runId := run]), run, ByEvent(e.kind), w.runs[e.runId].progress, quota, now);
    AtMostOneNote(w.notes, run.workspaceId, Fallback(e.runId));
    FallbackFor(w.rows, w.runs[e.runId], e);
  }

  lemma FallbackFor(rows: seq<Row>, run: Run, e: Event)
    requires e.kind in {RunSucceeded, RunFailed, RunCancelled, RunLost}
    ensures FallbackLevel(rows, Apply(run, e)) ==
            if StartSent(rows, run.id) then None
            else if e.kind == RunFailed || e.kind == RunLost then Some(ErrorLevel)
            else if e.kind == RunSucceeded && run.startedAt.Some? && e.at - run.startedAt.value > 5_000_000 then Some(SuccessLevel)
            else None
  {
  }

  // Starts.

  /** The device has subscribed to the machine, shows live activities and can start one, unless the run has none. */
  predicate GetsStart(w: World, run: Run, d: nat) {
    && d < |w.devices| && (run.machineId, d) in w.subscriptions
    && !w.devices[d].revoked && w.devices[d].liveEnabled && w.devices[d].startToken && run.policy != Disabled
  }

  /** When the activity may be started: at once, or when the run has lasted for a while. */
  function StartsAt(s: Settings, run: Run, now: int): int {
    (if run.startedAt.Some? then run.startedAt.value else now) + (if run.policy == Immediate then 0 else s.startDelay * 1_000_000)
  }

  lemma WantsIfStarts(w: World, run: Run, d: nat)
    requires d < |w.devices|
    ensures WantsStart(w, run, d) <==> GetsStart(w, run, d)
  {
  }

  lemma {:induction false} StartRows(s: Settings, w: World, run: Run, now: int, n: nat, d: nat)
    requires n <= |w.devices|
    ensures Waiting(CoalescedAll(w.rows, StartPushes(s, w, run, now, n), now), StartKey(run.id, d)) ==
            if !(d < n && GetsStart(w, run, d)) then Waiting(w.rows, StartKey(run.id, d))
            else match Waiting(w.rows, StartKey(run.id, d))
                 case Some(r) => Some(Refreshed(r, StartPush(s, run, d, now), now))
                 case None => Some(NewRow(StartPush(s, run, d, now), now))
  {
    if n == 0 {
      assert StartPushes(s, w, run, now, 0) == [];
    } else {
      var earlier, p, key := StartPushes(s, w, run, now, n - 1), StartPush(s, run, n - 1, now), StartKey(run.id, d);
      StartRows(s, w, run, now, n - 1, d);
      WantsIfStarts(w, run, n - 1);
      OneMorePush(w.rows, earlier, StartPushes(s, w, run, now, n), p, WantsStart(w, run, n - 1), now, key);
      if d == n - 1 {
        assert p.key == key && Waiting(CoalescedAll(w.rows, earlier, now), key) == Waiting(w.rows, key);
      } else {
        assert p.key != key && (d < n <==> d < n - 1);
      }
    }
  }

  /**
   After an event that starts the run was accepted: a device that is to start its activity
   has a start waiting, with the new state, urgent, and due when the activity may be started
   if none waited before; every other device has waiting for it what it had.
   */
  lemma {:induction false} StartReachesDevices(s: Settings, w: World, e: Event, quota: bool, now: int, d: nat)
    requires Enabled(w, Tick(AcceptEvent(e, quota), now)) && (e.kind == RunStarting || e.kind == RunStarted)
    ensures var after := Next(s, w, Tick(AcceptEvent(e, quota), now));
            var before, waits := Waiting(w.rows, StartKey(e.runId, d)), Waiting(after.rows, StartKey(e.runId, d));
            && e.runId in after.runs
            && var run := after.runs[e.runId];
            if GetsStart(w, run, d) then
              && waits.Some? && waits.value.kind == LIVE_START && waits.value.priority >= 10
              && waits.value.payload == LiveState(e.seqNo, Seconds(now), Seconds(run.updatedAt + 60_000_000))
              && waits.value.availableAt <= StartsAt(s, run, now)
              && (before == None ==> waits.value.availableAt == StartsAt(s, run, now) && waits.value.target == DeviceTarget(d)
                                     && waits.value.priority == 10 && waits.value.runId == Some(e.runId))
            else waits == before
  {
    var run := Apply(w.runs[e.runId], e);
    var with := w.(runs := w.runs[e.runId := run]);
    AcceptedRun(w, e);
    StartRows(s, with, run, now, |with.devices|, d);
    LivePayloadIs(run, now);
  }
}
