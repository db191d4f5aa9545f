/** What becomes of a binding whose activity has ended, in every history. */
module OutboxEnded {
  import opened Wrappers
  import opened Events
  import opened Ingest
  import opened Outbox
  import opened OutboxRuns
  import opened OutboxLaws
  import opened OutboxDelivery

  /** A registration of the activity of a binding, with a token that is not older, or a report that it is shown. */
  predicate Revives(w: World, t: Tick, b: nat)
    requires b < |w.bindings|
  {
    match t.step
    case RegisterToken(_, device, activity, generation) =>
      FindBinding(w.bindings, device, activity) == b && generation >= w.bindings[b].generation
    case ReportActivity(device, report) =>
      FindBinding(w.bindings, device, report.activity) == b && (report.state == ACTIVE || report.state == STALE)
    case _ => false
  }

  // Bindings.

  lemma {:induction false} OthersStay(bindings: seq<Binding>, runId: Uuid, device: nat, activity: Activity, b: nat)
    requires b < |bindings| && !Deliverable(bindings[b])
    ensures var (prepared, i) := WithBinding(bindings, runId, device, activity);
            b < |prepared| && prepared[b] == bindings[b] && (i == b <==> FindBinding(bindings, device, activity) == b)
  {
  }

  lemma {:induction false} ProcessedStays(s: Settings, w: World, i: nat, outcome: Outcome, now: int, b: nat)
    requires i < |w.rows| && b < |w.bindings| && !Deliverable(w.bindings[b])
    ensures var after := Processed(s, w, i, outcome, now).bindings; b < |after| && !Deliverable(after[b])
  {
    BindingsAfter(s, w, i, outcome, now);
    if w.rows[i].target == ActivityTarget(b) { EndedInPlace(s, w, i, outcome, now, b); }
  }

  lemma {:induction false} EndedInPlace(s: Settings, w: World, i: nat, outcome: Outcome, now: int, b: nat)
    requires i < |w.rows| && b < |w.bindings| && !Deliverable(w.bindings[b]) && w.rows[i].target == ActivityTarget(b)
    ensures var after := Processed(s, w, i, outcome, now).bindings; b < |after| && !Deliverable(after[b])
  {
  }

  lemma {:induction false} RegisterRevives(s: Settings, w: World, t: Tick, b: nat)
    requires Enabled(w, t) && b < |w.bindings| && !Deliverable(w.bindings[b]) && (t.step.RegisterToken? || t.step.ReportActivity?)
    ensures b < |Next(s, w, t).bindings| && (Deliverable(Next(s, w, t).bindings[b]) <==> Revives(w, t, b))
  {
    match t.step
    case RegisterToken(runId, device, activity, _) => OthersStay(w.bindings, runId, device, activity, b);
    case ReportActivity(device, report) => OthersStay(w.bindings, report.runId, device, report.activity, b);
  }

  /** A binding whose activity has ended can be delivered to again exactly if it is revived. */
  lemma {:induction false} RevivedExactly(s: Settings, w: World, t: Tick, b: nat)
    requires Enabled(w, t) && b < |w.bindings| && !Deliverable(w.bindings[b])
    ensures b < |Next(s, w, t).bindings| && (Deliverable(Next(s, w, t).bindings[b]) <==> Revives(w, t, b))
  {
    match t.step
    case RegisterToken(_, _, _, _) => RegisterRevives(s, w, t, b);
    case ReportActivity(_, _) => RegisterRevives(s, w, t, b);
    case ProcessOne(i, outcome) => ProcessedStays(s, w, i, outcome, t.now, b);
    case AcceptEvent(e, quota) =>
      var run := Apply(w.runs[e.runId], e);
      ScheduledBindings(s, w.(runs := w.runs[e.runId := run]), run, ByEvent(e.kind), w.runs[e.runId].progress, quota, t.now);
    case RenameMachine(runId, quota) =>
      ScheduledBindings(s, w, w.runs[runId], MachineRenamed, w.runs[runId].progress, quota, t.now);
    case _ =>
  }

  lemma ScheduledBindings(s: Settings, w: World, run: Run, cause: Cause, previous: Option<Progress>, quota: bool, now: int)
    ensures Scheduled(s, w, run, cause, previous, quota, now).bindings == w.bindings
  {
  }

  // Rows.

  /** Rows that were added are not for a binding. */
  predicate NoneAdded(before: seq<Row>, after: seq<Row>, b: nat) {
    |before| <= |after| && forall k :: |before| <= k < |after| ==> after[k].target != ActivityTarget(b)
  }

  predicate NoneFor(pushes: seq<Push>, b: nat) {
    forall k :: 0 <= k < |pushes| ==> !ForBinding(pushes[k], b)
  }

  lemma {:induction false} CoalescedAdds(rows: seq<Row>, p: Push, now: int, b: nat)
    requires !ForBinding(p, b)
    ensures NoneAdded(rows, Coalesced(rows, p, now), b)
  {
  }

  lemma {:induction false} CoalescedAllAdds(rows: seq<Row>, pushes: seq<Push>, now: int, b: nat)
    requires NoneFor(pushes, b)
    ensures NoneAdded(rows, CoalescedAll(rows, pushes, now), b)
    decreases |pushes|
  {
    if pushes != [] {
      var n := |pushes| - 1;
      var earlier := CoalescedAll(rows, pushes[..n], now);
      CoalescedAllAdds(rows, pushes[..n], now, b);
      CoalescedAdds(earlier, pushes[n], now, b);
      SameTargets(earlier, pushes[n], now);
    }
  }

  lemma {:induction false} SameTargets(rows: seq<Row>, p: Push, now: int)
    ensures |rows| <= |Coalesced(rows, p, now)|
    ensures forall k :: 0 <= k < |rows| ==> Coalesced(rows, p, now)[k].target == rows[k].target
  {
  }

  lemma {:induction false} StartsForNone(s: Settings, w: World, run: Run, now: int, n: nat, b: nat)
    requires n <= |w.devices|
    ensures NoneFor(StartPushes(s, w, run, now, n), b)
  {
    if n > 0 { StartsForNone(s, w, run, now, n - 1, b); }
  }

  lemma {:induction false} NotesForNone(w: World, note: Note, id: nat, now: int, n: nat, b: nat)
    requires n <= |w.devices|
    ensures NoneFor(NotePushes(w, note, id, now, n), b)
  {
    if n > 0 { NotesForNone(w, note, id, now, n - 1, b); }
  }

  lemma {:induction false} NotifiedAdds(w: World, note: Note, quota: bool, now: int, b: nat)
    ensures NoneAdded(w.rows, Notified(w, note, quota, now).rows, b)
  {
    NotesForNone(w, note, |w.notes|, now, |w.devices|, b);
    CoalescedAllAdds(w.rows, NotePushes(w, note, |w.notes|, now, |w.devices|), now, b);
  }

  lemma {:induction false} LiveAdds(s: Settings, w: World, run: Run, cause: Cause, previous: Option<Progress>, now: int, b: nat)
    requires b < |w.bindings| && !Deliverable(w.bindings[b])
    ensures NoneAdded(w.rows, LiveScheduled(s, w, run, cause, previous, now).rows, b)
  {
    PushesSkip(s, w, run, cause, previous, now, |w.bindings|, b);
    CoalescedAllAdds(w.rows, LivePushes(s, w, run, cause, previous, now, |w.bindings|), now, b);
  }

  lemma {:induction false} ScheduledAdds(s: Settings, w: World, run: Run, cause: Cause, previous: Option<Progress>, quota: bool, now: int, b: nat)
    requires b < |w.bindings| && !Deliverable(w.bindings[b])
    ensures NoneAdded(w.rows, Scheduled(s, w, run, cause, previous, quota, now).rows, b)
  {
    if Starts(cause) {
      StartsForNone(s, w, run, now, |w.devices|, b);
      CoalescedAllAdds(w.rows, StartPushes(s, w, run, now, |w.devices|), now, b);
    } else {
      var restarted := w.(rows := Restarted(w.rows, run, now));
      var ended := if IsTerminal(run.status) then FellBack(restarted, run, quota, now) else restarted;
      FellBackAdds(restarted, run, quota, now, b);
      LiveAdds(s, ended, run, cause, previous, now, b);
      LaterTargets(ended.rows, LivePushes(s, ended, run, cause, previous, now, |ended.bindings|), now);
    }
  }

  lemma {:induction false} FellBackAdds(w: World, run: Run, quota: bool, now: int, b: nat)
    ensures NoneAdded(w.rows, FellBack(w, run, quota, now).rows, b) && FellBack(w, run, quota, now).bindings == w.bindings
  {
    match FallbackLevel(w.rows, run)
    case Some(level) => NotifiedAdds(w, Note(run.workspaceId, Some(run.machineId), Some(run.id), level, Fallback(run.id)), quota, now, b);
    case None =>
  }

  lemma {:induction false} LaterTargets(rows: seq<Row>, pushes: seq<Push>, now: int)
    ensures |rows| <= |CoalescedAll(rows, pushes, now)|
    ensures forall k :: 0 <= k < |rows| ==> CoalescedAll(rows, pushes, now)[k].target == rows[k].target
    decreases |pushes|
  {
    if pushes != [] {
      var n := |pushes| - 1;
      LaterTargets(rows, pushes[..n], now);
      SameTargets(CoalescedAll(rows, pushes[..n], now), pushes[n], now);
    }
  }

  lemma {:induction false} RegisterAdds(s: Settings, w: World, t: Tick, b: nat)
    requires Enabled(w, t) && b < |w.bindings| && !Deliverable(w.bindings[b]) && !Revives(w, t, b)
    requires t.step.RegisterToken? || t.step.ReportActivity?
    ensures NoneAdded(w.rows, Next(s, w, t).rows, b)
  {
    match t.step
    case RegisterToken(runId, device, activity, _) =>
      OthersStay(w.bindings, runId, device, activity, b);
      var (bindings, i) := WithBinding(w.bindings, runId, device, activity);
      if i != b { CoalescedAdds(w.rows, BindingPush(w.runs[runId], i, bindings[i].device, t.now), t.now, b); }
    case ReportActivity(device, report) =>
      OthersStay(w.bindings, report.runId, device, report.activity, b);
      var (bindings, i) := WithBinding(w.bindings, report.runId, device, report.activity);
      if i != b { CoalescedAdds(w.rows, BindingPush(w.runs[report.runId], i, bindings[i].device, t.now), t.now, b); }
  }

  /** Unless it is revived, no row is added for a binding whose activity has ended. */
  lemma {:induction false} StepAdds(s: Settings, w: World, t: Tick, b: nat)
    requires Enabled(w, t) && b < |w.bindings| && !Deliverable(w.bindings[b]) && !Revives(w, t, b)
    ensures NoneAdded(w.rows, Next(s, w, t).rows, b)
  {
    match t.step
    case AcceptEvent(e, quota) =>
      var run := Apply(w.runs[e.runId], e);
      ScheduledAdds(s, w.(runs := w.runs[e.runId := run]), run, ByEvent(e.kind), w.runs[e.runId].progress, quota, t.now, b);
    case RenameMachine(runId, quota) =>
      ScheduledAdds(s, w, w.runs[runId], MachineRenamed, w.runs[runId].progress, quota, t.now, b);
    case Notify(note, quota) => NotifiedAdds(w, note, quota, t.now, b);
    case ProcessOne(i, outcome) => DeliveredRow(s, w, i, outcome, t.now);
    case RegisterToken(_, _, _, _) => RegisterAdds(s, w, t, b);
    case ReportActivity(_, _) => RegisterAdds(s, w, t, b);
    case _ =>
  }

  // Histories.

  ghost predicate NeverRevived(s: Settings, w: World, ticks: seq<Tick>, b: nat)
    requires Possible(s, w, ticks)
    decreases |ticks|
  {
    ticks != [] ==> b < |w.bindings| && !Revives(w, ticks[0], b) && NeverRevived(s, Next(s, w, ticks[0]), ticks[1..], b)
  }

  lemma {:induction false} StaysEnded(s: Settings, w: World, ticks: seq<Tick>, b: nat)
    requires Invariant(s, w) && s.maxAttempts >= 1 && Possible(s, w, ticks) && NeverRevived(s, w, ticks, b)
    requires b < |w.bindings| && !Deliverable(w.bindings[b])
    ensures var after := After(s, w, ticks);
            b < |after.bindings| && !Deliverable(after.bindings[b]) && NoneAdded(w.rows, after.rows, b)
    decreases |ticks|
  {
    if ticks != [] {
      var next := Next(s, w, ticks[0]);
      StepKeeps(s, w, ticks[0]);
      RevivedExactly(s, w, ticks[0], b);
      StepAdds(s, w, ticks[0], b);
      StaysEnded(s, next, ticks[1..], b);
      HistoryKeeps(s, next, ticks[1..]);
      AddedOn(w.rows, next.rows, After(s, next, ticks[1..]).rows, b);
    }
  }

  lemma {:induction false} AddedOn(x: seq<Row>, y: seq<Row>, z: seq<Row>, b: nat)
    requires NoneAdded(x, y, b) && NoneAdded(y, z, b) && RowsEvolve(y, z)
    ensures NoneAdded(x, z, b)
  {
    forall k | |x| <= k < |z| ensures z[k].target != ActivityTarget(b) {
      assert k < |y| ==> RowEvolves(y[k], z[k]);
    }
  }

  /**
   Once an end of an activity was accepted or has expired, and until the activity is
   registered or reported anew, its binding has no slot, and no push for it waits but such
   as waited before under another key.
   */
  lemma {:induction false} EndedGetsNoMore(s: Settings, ticks: seq<Tick>, i: nat, outcome: Outcome, now: int, more: seq<Tick>, b: nat)
    requires s.maxAttempts >= 1 && Possible(s, EMPTY, ticks) && Enabled(After(s, EMPTY, ticks), Tick(ProcessOne(i, outcome), now))
    requires EndsBinding(s, After(s, EMPTY, ticks), i, outcome, now, b)
    requires var ended := Next(s, After(s, EMPTY, ticks), Tick(ProcessOne(i, outcome), now));
             Possible(s, ended, more) && NeverRevived(s, ended, more, b)
    ensures var w := After(s, EMPTY, ticks);
            var later := After(s, Next(s, w, Tick(ProcessOne(i, outcome), now)), more);
            && b < |later.bindings| && (forall d :: !Occupies(later.bindings[b], d))
            && forall k :: 0 <= k < |later.rows| && later.rows[k].target == ActivityTarget(b) && later.rows[k].state == PENDING ==>
                 k < |w.rows| && w.rows[k].target == ActivityTarget(b) && w.rows[k].state == PENDING && w.rows[k].key != w.rows[i].key
  {
    var w, t := After(s, EMPTY, ticks), Tick(ProcessOne(i, outcome), now);
    var ended := Next(s, w, t);
    EmptyFits(s);
    HistoryKeeps(s, EMPTY, ticks);
    StepKeeps(s, w, t);
    EndIsOver(s, w, i, outcome, now, b);
    StaysEnded(s, ended, more, b);
    HistoryKeeps(s, ended, more);
    WaitingBefore(w.rows, ended.rows, After(s, ended, more).rows, i, b);
  }

  lemma EndIsOver(s: Settings, w: World, i: nat, outcome: Outcome, now: int, b: nat)
    requires i < |w.rows| && EndsBinding(s, w, i, outcome, now, b)
    ensures var after := Processed(s, w, i, outcome, now);
            && |after.bindings| == |w.bindings| && !Deliverable(after.bindings[b])
            && |after.rows| == |w.rows| && after.rows[i].state != PENDING
  {
  }

  lemma {:induction false} WaitingBefore(x: seq<Row>, y: seq<Row>, z: seq<Row>, i: nat, b: nat)
    requires OnePending(x) && RowsEvolve(x, y) && RowsEvolve(y, z) && NoneAdded(y, z, b) && |y| == |x|
    requires i < |x| && x[i].state == PENDING && y[i].state != PENDING
    ensures forall k :: 0 <= k < |z| && z[k].target == ActivityTarget(b) && z[k].state == PENDING ==>
              k < |x| && x[k].target == ActivityTarget(b) && x[k].state == PENDING && x[k].key != x[i].key
  {
    forall k | 0 <= k < |z| && z[k].target == ActivityTarget(b) && z[k].state == PENDING
      ensures k < |x| && x[k].target == ActivityTarget(b) && x[k].state == PENDING && x[k].key != x[i].key
    {
      assert RowEvolves(y[k], z[k]) && RowEvolves(x[k], y[k]);
    }
  }
}
