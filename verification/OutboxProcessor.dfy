/**
 The outbox as it runs: rows, devices and bindings are changed in place
 (server/app/services.py: _coalesce_outbox, create_notification, schedule_run_pushes;
 server/app/outbox.py: process_one, drain).
 */
module OutboxProcessor {
  import opened Wrappers
  import opened Events
  import opened Outbox
  import opened OutboxRuns
  import opened OutboxLaws
  import opened OutboxThrottle
  import OutboxUrgency

  // Work that is left.

  function Allowance(r: Row, max: nat): nat {
    if r.state == PENDING && r.attempts < max then max - r.attempts else 0
  }

  /** How often the pending rows may still be tried. */
  function Remaining(rows: seq<Row>, max: nat): nat {
    if rows == [] then 0 else Remaining(rows[..|rows| - 1], max) + Allowance(rows[|rows| - 1], max)
  }

  lemma {:induction false} RemainingUpdate(rows: seq<Row>, i: nat, r: Row, max: nat)
    requires i < |rows|
    ensures Remaining(rows[i := r], max) + Allowance(rows[i], max) == Remaining(rows, max) + Allowance(r, max)
    decreases |rows|
  {
    var n := |rows| - 1;
    if i < n {
      RemainingUpdate(rows[..n], i, r, max);
      assert rows[i := r][..n] == rows[..n][i := r];
    } else {
      assert rows[i := r][..n] == rows[..n];
    }
  }

  /** Pending rows may be tried at least once more. */
  predicate MayTry(rows: seq<Row>, max: nat) {
    forall i :: 0 <= i < |rows| && rows[i].state == PENDING ==> rows[i].attempts < max
  }

  lemma {:induction false} ProcessedRow(s: Settings, w: World, i: nat, outcome: Outcome, now: int)
    requires i < |w.rows| && w.rows[i].state == PENDING
    ensures var rows := Processed(s, w, i, outcome, now).rows;
            && |rows| == |w.rows| && rows == w.rows[i := rows[i]]
            && (rows[i].state == PENDING ==> rows[i].attempts == w.rows[i].attempts + 1 < s.maxAttempts)
  {
    if Sends(s, w, i, now) {
      AnsweredRow(s, w, i, outcome, now);
    }
  }

  /** Taking a row always leaves less to do. */
  lemma {:induction false} ProcessingShrinks(s: Settings, w: World, i: nat, outcome: Outcome, now: int)
    requires i < |w.rows| && w.rows[i].state == PENDING && MayTry(w.rows, s.maxAttempts)
    ensures var rows := Processed(s, w, i, outcome, now).rows;
            Remaining(rows, s.maxAttempts) < Remaining(w.rows, s.maxAttempts) && MayTry(rows, s.maxAttempts)
  {
    ProcessedRow(s, w, i, outcome, now);
    RemainingUpdate(w.rows, i, Processed(s, w, i, outcome, now).rows[i], s.maxAttempts);
  }

  /** Between schedulings, rows can be taken only as often as their remaining attempts allow. */
  lemma {:induction false} ProcessingEnds(s: Settings, w: World, ticks: seq<Tick>)
    requires Possible(s, w, ticks) && MayTry(w.rows, s.maxAttempts)
    requires forall k :: 0 <= k < |ticks| ==> ticks[k].step.ProcessOne?
    ensures |ticks| <= Remaining(w.rows, s.maxAttempts)
    decreases |ticks|
  {
    if ticks != [] {
      var t := ticks[0];
      ProcessingShrinks(s, w, t.step.i, t.step.outcome, t.now);
      assert forall k :: 0 <= k < |ticks[1..]| ==> ticks[1..][k] == ticks[k + 1];
      ProcessingEnds(s, Next(s, w, t), ticks[1..]);
    }
  }

  // What a loop over bindings sees.

  /** Sent rows are not touched by scheduling, so a push does not depend on those scheduled before it. */
  lemma {:induction false} LivePushSame(s: Settings, w: World, rows: seq<Row>, run: Run, b: nat, cause: Cause, previous: Option<Progress>, now: int)
    requires b < |w.bindings|
    requires SameSent(w.rows, rows, LiveKey(run.id, w.bindings[b].device))
    ensures LivePush(s, w.(rows := rows), run, b, cause, previous, now) == LivePush(s, w, run, b, cause, previous, now)
  {
    SameLatest(w.rows, rows, LiveKey(run.id, w.bindings[b].device));
  }

  lemma CoalescedAllSnoc(rows: seq<Row>, pushes: seq<Push>, p: Push, now: int)
    ensures CoalescedAll(rows, pushes + [p], now) == Coalesced(CoalescedAll(rows, pushes, now), p, now)
  {
    assert (pushes + [p])[..|pushes|] == pushes;
  }

  predicate NothingDue(rows: seq<Row>, now: int) {
    forall j :: 0 <= j < |rows| ==> !Due(rows[j], now)
  }

  // A report of a device's activities.

  predicate InWorkspace(w: World, workspaceId: string, runId: Uuid) {
    runId in w.runs && w.runs[runId].workspaceId == workspaceId
  }

  predicate AllKnown(w: World, workspaceId: string, reports: seq<Report>) {
    forall i :: 0 <= i < |reports| ==> InWorkspace(w, workspaceId, reports[i].runId)
  }

  /** The device says whether it takes frequent updates. */
  function WithFrequency(w: World, device: nat, frequent: Option<bool>): World
    requires device < |w.devices|
  {
    if frequent.None? then w else w.(devices := w.devices[device := w.devices[device].(frequent := frequent.value)])
  }

  /** The bindings and pushes after the first part of `sync_activities`. */
  function AllReported(w: World, workspaceId: string, device: nat, reports: seq<Report>, now: int): (after: World)
    requires AllKnown(w, workspaceId, reports)
    ensures after.runs == w.runs
  {
    if reports == [] then w
    else ActivityReported(AllReported(w, workspaceId, device, reports[..|reports| - 1], now), device, reports[|reports| - 1], now)
  }

  lemma AllReportedNext(w: World, workspaceId: string, device: nat, reports: seq<Report>, i: nat, now: int)
    requires i < |reports| && AllKnown(w, workspaceId, reports[..i]) && InWorkspace(w, workspaceId, reports[i].runId)
    ensures AllKnown(w, workspaceId, reports[..i + 1])
    ensures AllReported(w, workspaceId, device, reports[..i + 1], now)
            == ActivityReported(AllReported(w, workspaceId, device, reports[..i], now), device, reports[i], now)
  {
    assert reports[..i + 1][..i] == reports[..i];
  }

  function Supplied(reports: seq<Report>): set<Activity> {
    set i | 0 <= i < |reports| :: reports[i].activity
  }

  /** `sync_activities` for runs that are known in the workspace. */
  function ActivitiesSynced(w: World, workspaceId: string, device: nat, reports: seq<Report>, now: int): World
    requires AllKnown(w, workspaceId, reports)
  {
    var after := AllReported(w, workspaceId, device, reports, now);
    after.(bindings := UnreportedEnded(after.bindings, device, Supplied(reports)))
  }

  /** Without devices there is nothing to cancel. */
  lemma NobodyCancelled(w: World, machineId: string, now: int)
    ensures CancelledFor(w, machineId, {}, now) == w
  {
    assert CancelledFor(w, machineId, {}, now).rows == w.rows;
  }

  class PushStore {
    var runs: map<Uuid, Run>
    var subscriptions: set<(string, nat)>
    var devices: seq<Device>
    var bindings: seq<Binding>
    var rows: seq<Row>
    var attempts: seq<Attempt>
    var notes: seq<Note>

    function View(): World
      reads this
    {
      World(runs, subscriptions, devices, bindings, rows, attempts, notes)
    }

    constructor ()
      ensures View() == EMPTY
    {
      runs, subscriptions, devices, bindings, rows, attempts, notes := map[], {}, [], [], [], [], [];
    }

    method CoalesceOutbox(p: Push, now: int)
      modifies this`rows
      ensures rows == Coalesced(old(rows), p, now)
    {
      var i := 0;
      while i < |rows| && !(rows[i].key == p.key && rows[i].state == PENDING)
        invariant i <= |rows| && forall j :: 0 <= j < i ==> !IsPending(rows[j], p.key)
      {
        i := i + 1;
      }
      assert i == FindPending(rows, p.key);
      if i < |rows| {
        var existing := rows[i];
        rows := rows[i := existing.(kind := p.kind, payload := p.payload,
                                    priority := if existing.priority >= p.priority then existing.priority else p.priority,
                                    availableAt := if existing.availableAt <= p.availableAt then existing.availableAt else p.availableAt,
                                    updatedAt := now)];
      } else {
        rows := rows + [Row(p.kind, p.target, p.runId, p.payload, p.priority, p.availableAt, 0, PENDING, p.key, now, now)];
      }
    }

    method CreateNotification(note: Note, quota: bool, now: int)
      modifies this`notes, this`rows
      ensures View() == Notified(old(View()), note, quota, now)
    {
      if note.dedupe != NoDedupe && HasNote(notes, note.workspaceId, note.dedupe) {
        return;
      }
      if !quota {
        return;
      }
      SchedulePush(note, |notes|, now);
      notes := notes + [note];
    }

    method SchedulePush(note: Note, id: nat, now: int)
      modifies this`rows
      ensures rows == CoalescedAll(old(rows), NotePushes(old(View()), note, id, now, |devices|), now)
    {
      ghost var w := View();
      for d := 0 to |devices|
        invariant rows == CoalescedAll(w.rows, NotePushes(w, note, id, now, d), now)
      {
        if WantsNote(View(), note, d) {
          CoalescedAllSnoc(w.rows, NotePushes(w, note, id, now, d), NotePush(note, id, d, now), now);
          CoalesceOutbox(NotePush(note, id, d, now), now);
        } else {
          assert NotePushes(w, note, id, now, d) + [] == NotePushes(w, note, id, now, d);
        }
      }
    }

    method ScheduleStarts(s: Settings, run: Run, now: int)
      modifies this`rows
      ensures rows == CoalescedAll(old(rows), StartPushes(s, old(View()), run, now, |devices|), now)
    {
      ghost var w := View();
      for d := 0 to |devices|
        invariant rows == CoalescedAll(w.rows, StartPushes(s, w, run, now, d), now)
      {
        if WantsStart(View(), run, d) {
          CoalescedAllSnoc(w.rows, StartPushes(s, w, run, now, d), StartPush(s, run, d, now), now);
          CoalesceOutbox(StartPush(s, run, d, now), now);
        } else {
          assert StartPushes(s, w, run, now, d) + [] == StartPushes(s, w, run, now, d);
        }
      }
    }

    method RefreshStarts(run: Run, now: int)
      modifies this`rows
      ensures rows == Restarted(old(rows), run, now)
    {
      var updated := [];
      for i := 0 to |rows|
        invariant rows == old(rows) && |updated| == i
        invariant forall j :: 0 <= j < i ==> updated[j] == RestartedRow(rows[j], run, now)
      {
        var row := rows[i];
        if row.runId == Some(run.id) && row.kind == LIVE_START && row.state == PENDING {
          var priority := Priority(run, LIVE_START, None, None);
          row := row.(payload := LivePayload(run, now), priority := if row.priority >= priority then row.priority else priority, updatedAt := now);
          if IsTerminal(run.status) {
            row := row.(state := CANCELLED_PUSH);
          }
        }
        updated := updated + [row];
      }
      rows := updated;
    }

    method ScheduleLive(s: Settings, run: Run, cause: Cause, previous: Option<Progress>, now: int)
      modifies this`rows
      ensures View() == LiveScheduled(s, old(View()), run, cause, previous, now)
    {
      ghost var w := View();
      for b := 0 to |bindings|
        invariant rows == CoalescedAll(w.rows, LivePushes(s, w, run, cause, previous, now, b), now)
      {
        ghost var pushes := LivePushes(s, w, run, cause, previous, now, b);
        if GetsLive(bindings[b], run.id) {
          var push := LivePush(s, View(), run, b, cause, previous, now);
          CoalescedAllSameSent(w.rows, pushes, now, LiveKey(run.id, w.bindings[b].device));
          LivePushSame(s, w, rows, run, b, cause, previous, now);
          CoalescedAllSnoc(w.rows, pushes, push, now);
          CoalesceOutbox(push, now);
        } else {
          assert pushes + [] == pushes;
        }
      }
    }

    method ScheduleRunPushes(s: Settings, run: Run, cause: Cause, previous: Option<Progress>, quota: bool, now: int)
      modifies this`rows, this`notes
      ensures View() == Scheduled(s, old(View()), run, cause, previous, quota, now)
    {
      if Starts(cause) {
        ScheduleStarts(s, run, now);
        return;
      }
      RefreshStarts(run, now);
      if IsTerminal(run.status) {
        var level := FallbackLevel(rows, run);
        if level.Some? {
          CreateNotification(Note(run.workspaceId, Some(run.machineId), Some(run.id), level.value, Fallback(run.id)), quota, now);
        }
      }
      ScheduleLive(s, run, cause, previous, now);
    }

    // Registration of activities.

    /** Finds the binding of an activity, or adds one that takes the place of a placeholder. */
    method BindingFor(runId: Uuid, device: nat, activity: Activity) returns (b: nat)
      modifies this`bindings
      ensures (bindings, b) == WithBinding(old(bindings), runId, device, activity)
    {
      b := 0;
      while b < |bindings| && !(bindings[b].device == device && bindings[b].activity == activity)
        invariant b <= |bindings| && forall j :: 0 <= j < b ==> !IsBindingOf(bindings[j], device, activity)
      {
        b := b + 1;
      }
      assert b == FindBinding(bindings, device, activity);
      if b < |bindings| {
        return;
      }
      var p := 0;
      while p < |bindings| && !IsPlaceholder(bindings[p], runId, device)
        invariant p <= |bindings| && forall j :: 0 <= j < p ==> !IsPlaceholder(bindings[j], runId, device)
      {
        p := p + 1;
      }
      assert p == FindPlaceholder(bindings, runId, device);
      if p < |bindings| {
        bindings := bindings[p := bindings[p].(state := REPLACED)];
      }
      bindings := bindings + [Binding(runId, device, activity, false, 0, ACTIVE, 0, false)];
    }

    method RegisterActivityUpdateToken(workspaceId: string, runId: Uuid, device: nat, activity: Activity, generation: nat, now: int)
      returns (found: bool)
      modifies this`bindings, this`rows
      ensures found == InWorkspace(old(View()), workspaceId, runId)
      ensures View() == if found then TokenRegistered(old(View()), runId, device, activity, generation, now) else old(View())
    {
      if runId !in runs || runs[runId].workspaceId != workspaceId {
        return false;
      }
      var run := runs[runId];
      var b := BindingFor(runId, device, activity);
      if generation >= bindings[b].generation {
        bindings := bindings[b := bindings[b].(token := true, generation := generation, invalidated := false, state := ACTIVE)];
        if IsTerminal(run.status) || bindings[b].lastSequence < run.lastSeq {
          CoalesceOutbox(BindingPush(run, b, bindings[b].device, now), now);
        }
      }
      return true;
    }

    method ReportActivity(device: nat, r: Report, now: int)
      requires r.runId in runs
      modifies this`bindings, this`rows
      ensures View() == ActivityReported(old(View()), device, r, now)
    {
      var run := runs[r.runId];
      var b := BindingFor(r.runId, device, r.activity);
      bindings := bindings[b := bindings[b].(state := r.state, lastSequence := r.lastSequence)];
      if r.token.Some? && r.token.value >= bindings[b].generation {
        bindings := bindings[b := bindings[b].(token := true, generation := r.token.value)];
      }
      if Deliverable(bindings[b]) && bindings[b].token && (IsTerminal(run.status) || r.lastSequence < run.lastSeq) {
        CoalesceOutbox(BindingPush(run, b, bindings[b].device, now), now);
      }
    }

    /** `sync_activities`: an unknown run undoes the whole request. */
    method SyncActivities(workspaceId: string, device: nat, frequent: Option<bool>, reports: seq<Report>, now: int) returns (found: bool)
      requires device < |devices|
      modifies this`devices, this`bindings, this`rows
      ensures found == AllKnown(old(View()), workspaceId, reports)
      ensures View() == if found then ActivitiesSynced(WithFrequency(old(View()), device, frequent), workspaceId, device, reports, now)
                        else old(View())
    {
      var devicesBefore, bindingsBefore, rowsBefore := devices, bindings, rows;
      if frequent.Some? {
        devices := devices[device := devices[device].(frequent := frequent.value)];
      }
      ghost var w := View();
      for i := 0 to |reports|
        invariant AllKnown(w, workspaceId, reports[..i]) && View() == AllReported(w, workspaceId, device, reports[..i], now)
      {
        if reports[i].runId !in runs || runs[reports[i].runId].workspaceId != workspaceId {
          devices, bindings, rows := devicesBefore, bindingsBefore, rowsBefore;
          assert !InWorkspace(w, workspaceId, reports[i].runId);
          return false;
        }
        AllReportedNext(w, workspaceId, device, reports, i, now);
        ReportActivity(device, reports[i], now);
      }
      assert reports[..|reports|] == reports;
      EndUnreported(device, set i | 0 <= i < |reports| :: reports[i].activity);
      return true;
    }

    method EndUnreported(device: nat, supplied: set<Activity>)
      modifies this`bindings
      ensures bindings == UnreportedEnded(old(bindings), device, supplied)
    {
      var updated := [];
      for i := 0 to |bindings|
        invariant bindings == old(bindings) && |updated| == i
        invariant forall j :: 0 <= j < i ==> updated[j] == UnreportedBinding(bindings[j], device, supplied)
      {
        var b := bindings[i];
        if b.device == device && Deliverable(b) && !b.activity.PendingStart? && b.activity !in supplied {
          b := b.(state := ENDED);
        }
        updated := updated + [b];
      }
      bindings := updated;
    }

    // Revocation and reset.

    method CancelPendingPushes(machineId: string, targets: set<nat>, now: int)
      modifies this`rows
      ensures View() == CancelledFor(old(View()), machineId, targets, now)
    {
      if targets == {} {
        NobodyCancelled(View(), machineId, now);
        return;
      }
      var updated := [];
      for i := 0 to |rows|
        invariant rows == old(rows) && |updated| == i
        invariant forall j :: 0 <= j < i ==> updated[j] == CancelledRow(rows[j], AboutMachine(old(View()), rows[j], machineId, targets), now)
      {
        var row := rows[i];
        if row.state == PENDING && AboutMachine(View(), row, machineId, targets) {
          row := row.(state := CANCELLED_PUSH, updatedAt := now);
        }
        updated := updated + [row];
      }
      rows := updated;
    }

    method StopReceiving(machineId: string, device: nat, now: int) returns (found: bool)
      modifies this`rows, this`subscriptions
      ensures found == ((machineId, device) in old(subscriptions))
      ensures View() == if found then StoppedReceiving(old(View()), machineId, device, now) else old(View())
    {
      found := (machineId, device) in subscriptions;
      if found {
        CancelPendingPushes(machineId, {device}, now);
        subscriptions := subscriptions - {(machineId, device)};
      }
    }

    method RevokeMachine(machineId: string, now: int)
      modifies this`rows, this`subscriptions, this`bindings
      ensures View() == Revoked(old(View()), machineId, now)
    {
      CancelPendingPushes(machineId, SubscribedDevices(View(), machineId), now);
      subscriptions := set x | x in subscriptions && x.0 != machineId;
      InvalidateBindings(seq(|bindings|, b requires 0 <= b < |bindings| reads this =>
        OfMachine(View(), Some(bindings[b].runId), machineId) && !bindings[b].invalidated));
    }

    method ResetDevice(device: nat, now: int)
      requires device < |devices|
      modifies this`rows, this`subscriptions, this`bindings, this`devices
      ensures View() == DeviceReset(old(View()), device, now)
    {
      var updated := [];
      for i := 0 to |rows|
        invariant rows == old(rows) && |updated| == i
        invariant forall j :: 0 <= j < i ==> updated[j] == CancelledRow(rows[j], AboutDevice(old(View()), rows[j], device), now)
      {
        var row := rows[i];
        if row.state == PENDING && AboutDevice(View(), row, device) {
          row := row.(state := CANCELLED_PUSH, updatedAt := now);
        }
        updated := updated + [row];
      }
      rows := updated;
      InvalidateBindings(seq(|bindings|, b requires 0 <= b < |bindings| reads this => bindings[b].device == device));
      subscriptions := set x | x in subscriptions && x.1 != device;
      devices := devices[device := devices[device].(startToken := false, noteToken := false)];
    }

    method InvalidateBindings(chosen: seq<bool>)
      requires |chosen| == |bindings|
      modifies this`bindings
      ensures |bindings| == |chosen|
      ensures forall b :: 0 <= b < |chosen| ==> bindings[b] == InvalidatedBinding(old(bindings)[b], chosen[b])
    {
      var updated := [];
      for b := 0 to |bindings|
        invariant bindings == old(bindings) && |updated| == b
        invariant forall j :: 0 <= j < b ==> updated[j] == InvalidatedBinding(bindings[j], chosen[j])
      {
        var binding := bindings[b];
        if chosen[b] {
          binding := binding.(state := INVALIDATED, invalidated := true, token := false);
        }
        updated := updated + [binding];
      }
      bindings := updated;
    }

    // Delivery.

    /** The due row that comes first. */
    method TakeHead(now: int) returns (head: Option<nat>)
      ensures head.None? ==> NothingDue(rows, now) && forall j :: 0 <= j < |rows| ==> !OutboxUrgency.IsReady(rows[j], now)
      ensures head.Some? ==> IsHead(rows, head.value, now) && OutboxUrgency.MostUrgent(rows, head.value, now)
    {
      head := None;
      for i := 0 to |rows|
        invariant head.None? ==> forall j :: 0 <= j < i ==> !Due(rows[j], now)
        invariant head.Some? ==> head.value < i && Due(rows[head.value], now)
        invariant head.Some? ==> forall j :: 0 <= j < i && Due(rows[j], now) ==> !Before(rows[j], rows[head.value])
      {
        if Due(rows[i], now) && (head == None || Before(rows[i], rows[head.value])) {
          head := Some(i);
        }
      }
      if head.Some? { OutboxUrgency.HeadIsMostUrgent(rows, head.value, now); }
      assert head.None? ==> forall j :: 0 <= j < |rows| ==> !Due(rows[j], now);
    }

    method CloseRow(i: nat, state: PushState, now: int)
      requires i < |rows|
      modifies this`rows
      ensures View() == Closed(old(View()), i, state, now)
    {
      rows := rows[i := rows[i].(state := state, updatedAt := now)];
    }

    method ExpireRow(i: nat, now: int)
      requires i < |rows|
      modifies this`rows, this`bindings
      ensures View() == ExpiredRow(old(View()), i, now)
    {
      CloseRow(i, EXPIRED, now);
      var item := rows[i];
      if item.kind == LIVE_END && item.target.ActivityTarget? && item.target.binding < |bindings| {
        var b := item.target.binding;
        bindings := bindings[b := bindings[b].(state := EXPIRED_BINDING)];
      }
    }

    method AcceptRow(i: nat, now: int)
      requires i < |rows|
      modifies this`rows, this`bindings
      ensures View() == AcceptedRow(old(View()), i, now)
    {
      CloseRow(i, SENT, now);
      var item := rows[i];
      if item.kind == LIVE_START && item.runId.Some? && item.target.DeviceTarget? {
        bindings := bindings + [Binding(item.runId.value, item.target.device, PendingStart(i), false, 0, ACTIVE, 0, false)];
      } else if item.kind == LIVE_END && item.target.ActivityTarget? && item.target.binding < |bindings| {
        var b := item.target.binding;
        bindings := bindings[b := bindings[b].(state := ENDED)];
      }
    }

    method DropToken(i: nat, now: int)
      requires i < |rows|
      modifies this`rows, this`devices, this`bindings
      ensures View() == InvalidRow(old(View()), i, now)
    {
      CloseRow(i, FAILED_PUSH, now);
      var item := rows[i];
      match item.target
      case DeviceTarget(d) =>
        if d < |devices| {
          if item.kind == LIVE_START {
            devices := devices[d := devices[d].(startToken := false)];
          } else {
            devices := devices[d := devices[d].(noteToken := false)];
          }
        }
      case ActivityTarget(b) =>
        if b < |bindings| {
          bindings := bindings[b := bindings[b].(invalidated := true, state := INVALIDATED, token := false)];
        }
    }

    method RecordAttempt(i: nat, outcome: Outcome, now: int)
      requires i < |rows|
      modifies this`rows, this`attempts
      ensures View() == Attempted(old(View()), i, outcome, now)
    {
      var item := rows[i];
      attempts := attempts + [Attempt(i, item.key, item.kind, item.payload.sequence, now, outcome == Accepted)];
      rows := rows[i := item.(attempts := item.attempts + 1)];
    }

    method Answer(s: Settings, i: nat, outcome: Outcome, now: int)
      requires i < |rows|
      modifies this`rows, this`devices, this`bindings
      ensures View() == Answered(s, old(View()), i, outcome, now)
    {
      if outcome == Accepted {
        AcceptRow(i, now);
      } else if outcome == InvalidToken {
        DropToken(i, now);
      } else if outcome == Retryable && rows[i].attempts < s.maxAttempts {
        rows := rows[i := rows[i].(availableAt := now + RetryDelay(rows[i].attempts), updatedAt := now)];
      } else {
        CloseRow(i, FAILED_PUSH, now);
      }
    }

    /** One transaction of the worker; `outcome` is what the provider would answer. */
    method ProcessOne(s: Settings, now: int, outcome: Outcome) returns (took: Option<nat>)
      modifies this`rows, this`devices, this`bindings, this`attempts
      ensures took.None? ==> View() == old(View()) && NothingDue(rows, now) && forall j :: 0 <= j < |rows| ==> !OutboxUrgency.IsReady(rows[j], now)
      ensures took.Some? ==> IsHead(old(rows), took.value, now) && OutboxUrgency.MostUrgent(old(rows), took.value, now)
      ensures took.Some? ==> View() == Processed(s, old(View()), took.value, outcome, now)
    {
      took := TakeHead(now);
      if took == None {
        return;
      }
      var i := took.value;
      if IsLive(rows[i].kind) && Expiration(rows[i]) <= Seconds(now) {
        ExpireRow(i, now);
        return;
      }
      if !HasCapacity(s, View(), rows[i]) {
        CloseRow(i, SUPPRESSED, now);
        return;
      }
      if !HasToken(View(), rows[i]) {
        CloseRow(i, CANCELLED_PUSH, now);
        return;
      }
      RecordAttempt(i, outcome, now);
      Answer(s, i, outcome, now);
    }

    /**
     Drains the outbox up to a limit: what it does is a history of single steps, never more
     than the remaining attempts allow, and it stops early only when nothing is due.
     */
    method Drain(s: Settings, limit: nat) returns (processed: nat, ghost ticks: seq<Tick>)
      requires MayTry(rows, s.maxAttempts)
      modifies this`rows, this`devices, this`bindings, this`attempts
      ensures processed <= limit && processed == |ticks| && processed <= Remaining(old(rows), s.maxAttempts)
      ensures Possible(s, old(View()), ticks) && After(s, old(View()), ticks) == View()
      ensures processed < limit ==> exists now :: NothingDue(rows, now)
    {
      processed := 0;
      ticks := [];
      ghost var w := View();
      while processed < limit
        invariant processed <= limit && processed == |ticks| && MayTry(rows, s.maxAttempts)
        invariant processed + Remaining(rows, s.maxAttempts) <= Remaining(w.rows, s.maxAttempts)
        invariant Possible(s, w, ticks) && After(s, w, ticks) == View()
      {
        var now: int, outcome: Outcome := *, *;
        ghost var before := View();
        var took := ProcessOne(s, now, outcome);
        if took == None {
          return;
        }
        ProcessingShrinks(s, before, took.value, outcome, now);
        OneMoreTick(s, w, ticks, Tick(Step.ProcessOne(took.value, outcome), now));
        ticks := ticks + [Tick(Step.ProcessOne(took.value, outcome), now)];
        processed := processed + 1;
      }
    }
  }

  lemma {:induction false} OneMoreTick(s: Settings, w: World, ticks: seq<Tick>, t: Tick)
    requires Possible(s, w, ticks) && Enabled(After(s, w, ticks), t)
    ensures Possible(s, w, ticks + [t]) && After(s, w, ticks + [t]) == Next(s, After(s, w, ticks), t)
    decreases |ticks|
  {
    if ticks == [] {
      assert [t][1..] == [] && [] + [t] == [t];
    } else {
      assert (ticks + [t])[1..] == ticks[1..] + [t];
      OneMoreTick(s, Next(s, w, ticks[0]), ticks[1..], t);
    }
  }
}
