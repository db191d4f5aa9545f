/**
 The limit of live activities per device (server/app/outbox.py:
 _has_live_activity_capacity; server/app/api.py: sync_activities,
 register_activity_update_token).
 */
module OutboxCapacity {
  import opened Wrappers
  import opened Events
  import opened Ingest
  import opened Outbox
  import opened OutboxRuns

  function One(b: bool): nat {
    if b then 1 else 0
  }

  lemma {:induction false} OccupiedUpdate(bindings: seq<Binding>, i: nat, b: Binding, device: nat)
    requires i < |bindings|
    ensures Occupied(bindings[i := b], device) + One(Occupies(bindings[i], device)) == Occupied(bindings, device) + One(Occupies(b, device))
    decreases |bindings|
  {
    var n := |bindings| - 1;
    if i < n {
      OccupiedUpdate(bindings[..n], i, b, device);
      assert bindings[i := b][..n] == bindings[..n][i := b];
    } else {
      assert bindings[i := b][..n] == bindings[..n];
    }
  }

  lemma {:induction false} OccupiedSnoc(bindings: seq<Binding>, b: Binding, device: nat)
    ensures Occupied(bindings + [b], device) == Occupied(bindings, device) + One(Occupies(b, device))
  {
    assert (bindings + [b])[..|bindings|] == bindings;
  }

  lemma {:induction false} OccupiedFalls(a: seq<Binding>, b: seq<Binding>, device: nat)
    requires |b| == |a| && forall i :: 0 <= i < |a| ==> (Occupies(b[i], device) ==> Occupies(a[i], device))
    ensures Occupied(b, device) <= Occupied(a, device)
    decreases |a|
  {
    if a != [] {
      OccupiedFalls(a[..|a| - 1], b[..|a| - 1], device);
    }
  }

  // Registrations.

  /** A registration takes over a placeholder that counts. */
  predicate Replaces(bindings: seq<Binding>, runId: Uuid, device: nat, activity: Activity) {
    && FindBinding(bindings, device, activity) == |bindings|
    && FindPlaceholder(bindings, runId, device) < |bindings|
    && Occupies(bindings[FindPlaceholder(bindings, runId, device)], device)
  }

  /** Preparing a binding frees the placeholder it replaces, and the binding itself counts at most once. */
  lemma {:induction false} WithBindingOccupies(bindings: seq<Binding>, runId: Uuid, device: nat, activity: Activity, b: Binding, d: nat)
    requires b.device == device
    ensures var (prepared, i) := WithBinding(bindings, runId, device, activity);
            && prepared[i].device == device
            && Occupied(prepared[i := b], d) <= Occupied(bindings, d) + One(d == device && !Replaces(bindings, runId, device, activity))
            && (Replaces(bindings, runId, device, activity) && (Occupies(b, device) || d != device) ==>
                  Occupied(prepared[i := b], d) == Occupied(bindings, d))
  {
    var (prepared, i) := WithBinding(bindings, runId, device, activity);
    OccupiedUpdate(prepared, i, b, d);
    if FindBinding(bindings, device, activity) == |bindings| {
      var p := FindPlaceholder(bindings, runId, device);
      var kept := if p < |bindings| then bindings[p := bindings[p].(state := REPLACED)] else bindings;
      OccupiedSnoc(kept, prepared[i], d);
      if p < |bindings| {
        OccupiedUpdate(bindings, p, bindings[p].(state := REPLACED), d);
      }
    }
  }

  /** What a step may add to a device beyond the limit: a registration that replaces no placeholder. */
  function Extra(w: World, t: Tick, d: nat): nat {
    match t.step
    case RegisterToken(runId, device, activity, _) => One(d == device && !Replaces(w.bindings, runId, device, activity))
    case ReportActivity(device, report) => One(d == device && !Replaces(w.bindings, report.runId, device, report.activity))
    case _ => 0
  }

  lemma {:induction false} RegisterOccupies(s: Settings, w: World, t: Tick, d: nat)
    requires Enabled(w, t) && (t.step.RegisterToken? || t.step.ReportActivity?)
    ensures Occupied(Next(s, w, t).bindings, d) <= Occupied(w.bindings, d) + Extra(w, t, d)
  {
    match t.step
    case RegisterToken(runId, device, activity, generation) =>
      var (prepared, i) := WithBinding(w.bindings, runId, device, activity);
      WithBindingOccupies(w.bindings, runId, device, activity, prepared[i], d);
      WithBindingOccupies(w.bindings, runId, device, activity,
                          prepared[i].(token := true, generation := generation, invalidated := false, state := ACTIVE), d);
      assert prepared[i := prepared[i]] == prepared;
    case ReportActivity(device, report) =>
      var (prepared, i) := WithBinding(w.bindings, report.runId, device, report.activity);
      WithBindingOccupies(w.bindings, report.runId, device, report.activity, ReportedBinding(prepared[i], report), d);
  }

  /** Registering a started activity takes the place of its placeholder: the count stays what it was. */
  lemma {:induction false} ReplacementConserves(s: Settings, w: World, t: Tick)
    requires Enabled(w, t)
    requires match t.step
             case RegisterToken(runId, device, activity, _) => Replaces(w.bindings, runId, device, activity)
             case ReportActivity(device, report) =>
               Replaces(w.bindings, report.runId, device, report.activity) && (report.state == ACTIVE || report.state == STALE)
             case _ => false
    ensures forall d :: Occupied(Next(s, w, t).bindings, d) == Occupied(w.bindings, d)
  {
    forall d ensures Occupied(Next(s, w, t).bindings, d) == Occupied(w.bindings, d) {
      match t.step
      case RegisterToken(runId, device, activity, generation) =>
        var (prepared, i) := WithBinding(w.bindings, runId, device, activity);
        var b := prepared[i].(token := true, generation := generation, invalidated := false, state := ACTIVE);
        WithBindingOccupies(w.bindings, runId, device, activity, b, d);
      case ReportActivity(device, report) =>
        var (prepared, i) := WithBinding(w.bindings, report.runId, device, report.activity);
        WithBindingOccupies(w.bindings, report.runId, device, report.activity, ReportedBinding(prepared[i], report), d);
    }
  }

  // Steps.

  lemma {:induction false} NotifiedBindings(s: Settings, w: World, run: Run, cause: Cause, previous: Option<Progress>, quota: bool, now: int)
    ensures Scheduled(s, w, run, cause, previous, quota, now).bindings == w.bindings
  {
  }

  lemma {:induction false} ProcessOccupies(s: Settings, w: World, i: nat, outcome: Outcome, now: int, d: nat)
    requires i < |w.rows|
    ensures var after := Processed(s, w, i, outcome, now);
            || Occupied(after.bindings, d) <= Occupied(w.bindings, d)
            || Occupied(after.bindings, d) <= s.maxPerDevice
  {
    var after, r := Processed(s, w, i, outcome, now), w.rows[i];
    if Sends(s, w, i, now) && outcome.Accepted? && r.kind == LIVE_START && r.runId.Some? && r.target.DeviceTarget? {
      OccupiedSnoc(w.bindings, Binding(r.runId.value, r.target.device, PendingStart(i), false, 0, ACTIVE, 0, false), d);
    } else {
      OccupiedFalls(w.bindings, after.bindings, d);
    }
  }

  /** An accepted start leaves its device within the limit; no other step adds more than its extra. */
  lemma {:induction false} StepOccupies(s: Settings, w: World, t: Tick, d: nat)
    requires Enabled(w, t)
    ensures var after := Next(s, w, t);
            || Occupied(after.bindings, d) <= Occupied(w.bindings, d) + Extra(w, t, d)
            || (t.step.ProcessOne? && Occupied(after.bindings, d) <= s.maxPerDevice)
  {
    match t.step
    case RegisterToken(_, _, _, _) => RegisterOccupies(s, w, t, d);
    case ReportActivity(_, _) => RegisterOccupies(s, w, t, d);
    case ProcessOne(i, outcome) => ProcessOccupies(s, w, i, outcome, t.now, d);
    case AcceptEvent(e, quota) =>
      var run := Apply(w.runs[e.runId], e);
      NotifiedBindings(s, w.(runs := w.runs[e.runId := run]), run, ByEvent(e.kind), w.runs[e.runId].progress, quota, t.now);
    case RenameMachine(runId, quota) => NotifiedBindings(s, w, w.runs[runId], MachineRenamed, w.runs[runId].progress, quota, t.now);
    case EndUnreported(_, _) => OccupiedFalls(w.bindings, Next(s, w, t).bindings, d);
    case RevokeMachine(_) => OccupiedFalls(w.bindings, Next(s, w, t).bindings, d);
    case ResetDevice(_) => OccupiedFalls(w.bindings, Next(s, w, t).bindings, d);
    case _ =>
  }

  ghost function Extras(s: Settings, w: World, ticks: seq<Tick>, d: nat): nat
    requires Possible(s, w, ticks)
    decreases |ticks|
  {
    if ticks == [] then 0 else Extra(w, ticks[0], d) + Extras(s, Next(s, w, ticks[0]), ticks[1..], d)
  }

  function Limit(s: Settings): nat {
    if s.maxPerDevice >= 0 then s.maxPerDevice else 0
  }

  lemma {:induction false} HistoryOccupies(s: Settings, w: World, ticks: seq<Tick>, d: nat, before: nat)
    requires Possible(s, w, ticks) && Occupied(w.bindings, d) <= Limit(s) + before
    ensures Occupied(After(s, w, ticks).bindings, d) <= Limit(s) + before + Extras(s, w, ticks, d)
    decreases |ticks|
  {
    if ticks != [] {
      StepOccupies(s, w, ticks[0], d);
      HistoryOccupies(s, Next(s, w, ticks[0]), ticks[1..], d, before + Extra(w, ticks[0], d));
    }
  }

  /**
   The live activities that a device may still show never exceed the limit by more than
   the registrations that took over no placeholder.
   */
  lemma {:induction false} CapacityHolds(s: Settings, ticks: seq<Tick>, d: nat)
    requires Possible(s, EMPTY, ticks)
    ensures Occupied(After(s, EMPTY, ticks).bindings, d) <= Limit(s) + Extras(s, EMPTY, ticks, d)
  {
    HistoryOccupies(s, EMPTY, ticks, d, 0);
  }
}
