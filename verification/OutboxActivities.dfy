/**
 What devices tell the server about their activities (server/app/api.py:
 register_activity_update_token, sync_activities), and what the server then schedules.
 */
module OutboxActivities {
  import opened Wrappers
  import opened Events
  import opened Ingest
  import opened Outbox
  import opened OutboxRuns
  import opened OutboxUrgency
  import opened OutboxReach

  /** The binding of an activity on a device is the first of its name. */
  predicate IsBindingAt(bindings: seq<Binding>, device: nat, activity: Activity, i: nat) {
    && i < |bindings| && bindings[i].device == device && bindings[i].activity == activity
    && forall j :: 0 <= j < i ==> !(bindings[j].device == device && bindings[j].activity == activity)
  }

  predicate IsUnknown(bindings: seq<Binding>, device: nat, activity: Activity) {
    forall j :: 0 <= j < |bindings| ==> !(bindings[j].device == device && bindings[j].activity == activity)
  }

  /** A binding that waits for the activity that a start has asked for. */
  predicate AwaitsActivity(b: Binding, runId: Uuid, device: nat) {
    b.device == device && b.runId == runId && b.activity.PendingStart? && b.state == ACTIVE
  }

  /** An unknown activity gets a new binding, and takes over the first one that waits for it. */
  predicate TakesOver(before: seq<Binding>, after: seq<Binding>, runId: Uuid, device: nat) {
    && |after| == |before| + 1
    && forall k :: 0 <= k < |before| ==>
         after[k] == if AwaitsActivity(before[k], runId, device) && forall j :: 0 <= j < k ==> !AwaitsActivity(before[j], runId, device)
                     then before[k].(state := REPLACED) else before[k]
  }

  lemma {:induction false} PreparedBinding(bindings: seq<Binding>, runId: Uuid, device: nat, activity: Activity)
    ensures var (prepared, i) := WithBinding(bindings, runId, device, activity);
            if i < |bindings| then prepared == bindings && IsBindingAt(bindings, device, activity, i)
            else && i == |bindings| && IsUnknown(bindings, device, activity) && TakesOver(bindings, prepared, runId, device)
                 && prepared[i] == Binding(runId, device, activity, false, 0, ACTIVE, 0, false)
  {
    var i, p := FindBinding(bindings, device, activity), FindPlaceholder(bindings, runId, device);
    if i < |bindings| {
      assert IsBindingOf(bindings[i], device, activity);
      assert forall j :: 0 <= j < i ==> !IsBindingOf(bindings[j], device, activity);
    } else {
      assert forall j :: 0 <= j < |bindings| ==> !IsBindingOf(bindings[j], device, activity);
      assert p < |bindings| ==> IsPlaceholder(bindings[p], runId, device);
      assert forall j :: 0 <= j < p ==> !IsPlaceholder(bindings[j], runId, device);
    }
  }

  // What an activity has missed.

  predicate Over(run: Run) {
    run.status in {SUCCEEDED, FAILED, CANCELLED, LOST}
  }

  /** A push with the present state of the run waits under a key, and nothing else has changed. */
  ghost predicate CatchesUp(before: seq<Row>, after: seq<Row>, run: Run, b: nat, device: nat, now: int) {
    var key := LiveKey(run.id, device);
    && (forall other: Key :: other != key ==> Waiting(after, other) == Waiting(before, other))
    && Waiting(after, key).Some?
    && var r := Waiting(after, key).value;
    && r.kind == (if Over(run) then LIVE_END else LIVE_UPDATE)
    && r.payload == LiveState(if run.lastSeq == 0 then 1 else run.lastSeq, Seconds(now), Seconds(run.updatedAt + 60_000_000))
    && r.availableAt <= now && (Over(run) || run.attention in {WARNING, ACTION_REQUIRED} ==> r.priority >= 10)
    && (Waiting(before, key) == None ==>
          r.availableAt == now && r.target == ActivityTarget(b) && r.runId == Some(run.id)
          && r.priority == if Over(run) || run.attention in {WARNING, ACTION_REQUIRED} then 10 else 5)
  }

  lemma {:induction false} BindingPushCatchesUp(rows: seq<Row>, run: Run, b: nat, device: nat, now: int)
    ensures CatchesUp(rows, Coalesced(rows, BindingPush(run, b, device, now), now), run, b, device, now)
  {
    var p := BindingPush(run, b, device, now);
    WaitingAfter(rows, p, now, p.key);
    forall other: Key | other != p.key ensures Waiting(Coalesced(rows, p, now), other) == Waiting(rows, other) {
      WaitingAfter(rows, p, now, other);
    }
  }

  // Registration.

  /** What a registration with a token makes of a binding. */
  predicate Registered(before: Binding, after: Binding, generation: nat) {
    after == Binding(before.runId, before.device, before.activity, true, generation, ACTIVE, before.lastSequence, false)
  }

  /**
   A token that is older than the one of a known activity changes nothing; else the
   activity is shown, with the token, and catches up exactly if its run has ended or it has
   seen less than all of it.
   */
  lemma {:induction false} RegistrationTells(s: Settings, w: World, runId: Uuid, device: nat, activity: Activity, generation: nat, now: int, i: nat)
    requires runId in w.runs && IsBindingAt(w.bindings, device, activity, i)
    ensures var after, run, b := Next(s, w, Tick(RegisterToken(runId, device, activity, generation), now)), w.runs[runId], w.bindings[i];
            if generation < b.generation then after == w
            else
              && after == w.(rows := after.rows, bindings := after.bindings)
              && |after.bindings| == |w.bindings| && Registered(b, after.bindings[i], generation)
              && (forall k :: 0 <= k < |w.bindings| && k != i ==> after.bindings[k] == w.bindings[k])
              && if Over(run) || b.lastSequence < run.lastSeq then CatchesUp(w.rows, after.rows, run, i, device, now) else after.rows == w.rows
  {
    PreparedBinding(w.bindings, runId, device, activity);
    BindingPushCatchesUp(w.rows, w.runs[runId], i, device, now);
  }

  /** A new activity takes over the binding that waits for it, and catches up exactly if something has happened to its run. */
  lemma {:induction false} FirstRegistrationTells(s: Settings, w: World, runId: Uuid, device: nat, activity: Activity, generation: nat, now: int)
    requires runId in w.runs && IsUnknown(w.bindings, device, activity)
    ensures var after, run, n := Next(s, w, Tick(RegisterToken(runId, device, activity, generation), now)), w.runs[runId], |w.bindings|;
            && after == w.(rows := after.rows, bindings := after.bindings) && TakesOver(w.bindings, after.bindings, runId, device)
            && after.bindings[n] == Binding(runId, device, activity, true, generation, ACTIVE, 0, false)
            && if Over(run) || run.lastSeq > 0 then CatchesUp(w.rows, after.rows, run, n, device, now) else after.rows == w.rows
  {
    PreparedBinding(w.bindings, runId, device, activity);
    BindingPushCatchesUp(w.rows, w.runs[runId], |w.bindings|, device, now);
  }

  // Reports.

  /** What a report makes of a binding: its state and what it has seen, and its token if that is not older. */
  predicate ReportedAs(before: Binding, after: Binding, r: Report) {
    && (after.runId, after.device, after.activity, after.invalidated) == (before.runId, before.device, before.activity, before.invalidated)
    && after.state == r.state && after.lastSequence == r.lastSequence
    && if r.token.Some? && r.token.value >= before.generation then after.token && after.generation == r.token.value
       else after.token == before.token && after.generation == before.generation
  }

  predicate HasMissed(b: Binding, run: Run) {
    b.state in {ACTIVE, STALE} && b.token && (Over(run) || b.lastSequence < run.lastSeq)
  }

  /** A reported activity is as reported, and catches up exactly if it is shown, has a token and has missed something. */
  lemma {:induction false} ReportTells(s: Settings, w: World, device: nat, r: Report, now: int, i: nat)
    requires r.runId in w.runs && IsBindingAt(w.bindings, device, r.activity, i)
    ensures var after, run := Next(s, w, Tick(ReportActivity(device, r), now)), w.runs[r.runId];
            && after == w.(rows := after.rows, bindings := after.bindings)
            && |after.bindings| == |w.bindings| && ReportedAs(w.bindings[i], after.bindings[i], r)
            && (forall k :: 0 <= k < |w.bindings| && k != i ==> after.bindings[k] == w.bindings[k])
            && if HasMissed(after.bindings[i], run) then CatchesUp(w.rows, after.rows, run, i, device, now) else after.rows == w.rows
  {
    PreparedBinding(w.bindings, r.runId, device, r.activity);
    BindingPushCatchesUp(w.rows, w.runs[r.runId], i, device, now);
  }

  lemma {:induction false} FirstReportTells(s: Settings, w: World, device: nat, r: Report, now: int)
    requires r.runId in w.runs && IsUnknown(w.bindings, device, r.activity)
    ensures var after, run, n := Next(s, w, Tick(ReportActivity(device, r), now)), w.runs[r.runId], |w.bindings|;
            && after == w.(rows := after.rows, bindings := after.bindings) && TakesOver(w.bindings, after.bindings, r.runId, device)
            && after.bindings[n] == Binding(r.runId, device, r.activity, r.token.Some?, if r.token.Some? then r.token.value else 0,
                                            r.state, r.lastSequence, false)
            && if HasMissed(after.bindings[n], run) then CatchesUp(w.rows, after.rows, run, n, device, now) else after.rows == w.rows
  {
    PreparedBinding(w.bindings, r.runId, device, r.activity);
    BindingPushCatchesUp(w.rows, w.runs[r.runId], |w.bindings|, device, now);
  }

  /** After a report of all its activities, no activity of the device is shown but those reported and those that are still awaited. */
  lemma {:induction false} UnreportedTells(s: Settings, w: World, device: nat, supplied: set<Activity>, now: int)
    ensures var after := Next(s, w, Tick(EndUnreported(device, supplied), now));
            && after == w.(bindings := after.bindings) && |after.bindings| == |w.bindings|
            && forall k :: 0 <= k < |w.bindings| ==>
                 var b := w.bindings[k];
                 after.bindings[k] ==
                 if b.device == device && b.state in {ACTIVE, STALE} && b.activity.Reported? && b.activity !in supplied
                 then b.(state := ENDED) else b
  {
  }
}
