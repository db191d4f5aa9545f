/** Updates of activities of runs that have ended: none is made, and one can be left over. */
module OutboxLeftover {
  import opened Wrappers
  import opened Events
  import opened Ingest
  import opened Outbox
  import opened OutboxRuns
  import opened OutboxLaws
  import opened OutboxUrgency

  predicate HasEnded(runs: map<Uuid, Run>, runId: Uuid) {
    runId in runs && runs[runId].status in {SUCCEEDED, FAILED, CANCELLED, LOST}
  }

  predicate IsUpdateOf(r: Row, runId: Uuid) {
    r.state == PENDING && r.kind == LIVE_UPDATE && r.key.LiveKey? && r.key.run == runId
  }

  /** Every waiting update of a run waited before, with the same state to show. */
  predicate NoNewUpdate(before: seq<Row>, after: seq<Row>, runId: Uuid) {
    |before| <= |after| && forall i :: 0 <= i < |after| && IsUpdateOf(after[i], runId) ==>
      i < |before| && IsUpdateOf(before[i], runId) && before[i].payload == after[i].payload
  }

  predicate UpdatesNone(p: Push, runId: Uuid) {
    p.key.LiveKey? && p.key.run == runId ==> p.kind != LIVE_UPDATE
  }

  lemma {:induction false} NoNewCoalesced(rows: seq<Row>, p: Push, now: int, runId: Uuid)
    requires UpdatesNone(p, runId)
    ensures NoNewUpdate(rows, Coalesced(rows, p, now), runId)
  {
  }

  lemma NoNewOn(a: seq<Row>, b: seq<Row>, c: seq<Row>, runId: Uuid)
    requires NoNewUpdate(a, b, runId) && NoNewUpdate(b, c, runId)
    ensures NoNewUpdate(a, c, runId)
  {
  }

  lemma {:induction false} NoNewCoalescedAll(rows: seq<Row>, pushes: seq<Push>, now: int, runId: Uuid)
    requires forall i :: 0 <= i < |pushes| ==> UpdatesNone(pushes[i], runId)
    ensures NoNewUpdate(rows, CoalescedAll(rows, pushes, now), runId)
    decreases |pushes|
  {
    if pushes != [] {
      var n := |pushes| - 1;
      var before := CoalescedAll(rows, pushes[..n], now);
      NoNewCoalescedAll(rows, pushes[..n], now, runId);
      NoNewCoalesced(before, pushes[n], now, runId);
      NoNewOn(rows, before, Coalesced(before, pushes[n], now), runId);
    }
  }

  lemma {:induction false} StartsUpdateNone(s: Settings, w: World, run: Run, now: int, n: nat, runId: Uuid)
    requires n <= |w.devices|
    ensures forall i :: 0 <= i < |StartPushes(s, w, run, now, n)| ==> UpdatesNone(StartPushes(s, w, run, now, n)[i], runId)
  {
    if n > 0 { StartsUpdateNone(s, w, run, now, n - 1, runId); }
  }

  lemma {:induction false} NotesUpdateNone(w: World, note: Note, id: nat, now: int, n: nat, runId: Uuid)
    requires n <= |w.devices|
    ensures forall i :: 0 <= i < |NotePushes(w, note, id, now, n)| ==> UpdatesNone(NotePushes(w, note, id, now, n)[i], runId)
  {
    if n > 0 { NotesUpdateNone(w, note, id, now, n - 1, runId); }
  }

  lemma {:induction false} LivesUpdateNone(s: Settings, w: World, run: Run, cause: Cause, previous: Option<Progress>, now: int, n: nat, runId: Uuid)
    requires n <= |w.bindings| && (run.id != runId || IsTerminal(run.status))
    ensures forall i :: 0 <= i < |LivePushes(s, w, run, cause, previous, now, n)| ==> UpdatesNone(LivePushes(s, w, run, cause, previous, now, n)[i], runId)
  {
    if n > 0 { LivesUpdateNone(s, w, run, cause, previous, now, n - 1, runId); }
  }

  lemma {:induction false} NoNewNotified(w: World, note: Note, quota: bool, now: int, runId: Uuid)
    ensures NoNewUpdate(w.rows, Notified(w, note, quota, now).rows, runId)
  {
    NotesUpdateNone(w, note, |w.notes|, now, |w.devices|, runId);
    NoNewCoalescedAll(w.rows, NotePushes(w, note, |w.notes|, now, |w.devices|), now, runId);
  }

  lemma {:induction false} NoNewRestarted(rows: seq<Row>, run: Run, now: int, runId: Uuid)
    ensures NoNewUpdate(rows, Restarted(rows, run, now), runId)
  {
  }

  lemma {:induction false} NoNewScheduled(s: Settings, w: World, run: Run, cause: Cause, previous: Option<Progress>, quota: bool, now: int, runId: Uuid)
    requires run.id != runId || IsTerminal(run.status)
    ensures NoNewUpdate(w.rows, Scheduled(s, w, run, cause, previous, quota, now).rows, runId)
  {
    if Starts(cause) {
      StartsUpdateNone(s, w, run, now, |w.devices|, runId);
      NoNewCoalescedAll(w.rows, StartPushes(s, w, run, now, |w.devices|), now, runId);
    } else {
      var restarted := w.(rows := Restarted(w.rows, run, now));
      var ended := if IsTerminal(run.status) then FellBack(restarted, run, quota, now) else restarted;
      var pushes := LivePushes(s, ended, run, cause, previous, now, |ended.bindings|);
      NoNewRestarted(w.rows, run, now, runId);
      NoNewFallback(restarted, run, quota, now, runId);
      LivesUpdateNone(s, ended, run, cause, previous, now, |ended.bindings|, runId);
      NoNewCoalescedAll(ended.rows, pushes, now, runId);
      NoNewOn(w.rows, restarted.rows, ended.rows, runId);
      NoNewOn(w.rows, ended.rows, CoalescedAll(ended.rows, pushes, now), runId);
    }
  }

  lemma {:induction false} NoNewFallback(w: World, run: Run, quota: bool, now: int, runId: Uuid)
    ensures NoNewUpdate(w.rows, FellBack(w, run, quota, now).rows, runId)
    ensures NoNewUpdate(w.rows, w.rows, runId)
  {
    match FallbackLevel(w.rows, run)
    case Some(level) => NoNewNotified(w, Note(run.workspaceId, Some(run.machineId), Some(run.id), level, Fallback(run.id)), quota, now, runId);
    case None =>
  }

  lemma {:induction false} NoNewProcessed(s: Settings, w: World, i: nat, outcome: Outcome, now: int, runId: Uuid)
    requires i < |w.rows| && w.rows[i].state == PENDING
    ensures NoNewUpdate(w.rows, Processed(s, w, i, outcome, now).rows, runId)
  {
    var after := Processed(s, w, i, outcome, now).rows;
    assert |after| == |w.rows| && (after[i].kind, after[i].key, after[i].payload) == (w.rows[i].kind, w.rows[i].key, w.rows[i].payload);
    assert forall k :: 0 <= k < |w.rows| && k != i ==> after[k] == w.rows[k];
  }

  lemma {:induction false} NoNewBindingPush(w: World, run: Run, b: nat, device: nat, now: int, runId: Uuid)
    requires run.id != runId || IsTerminal(run.status)
    ensures NoNewUpdate(w.rows, Coalesced(w.rows, BindingPush(run, b, device, now), now), runId)
  {
    NoNewCoalesced(w.rows, BindingPush(run, b, device, now), now, runId);
  }

  lemma {:induction false} NoNewRegistered(s: Settings, w: World, t: Tick, runId: Uuid)
    requires Enabled(w, t) && (t.step.RegisterToken? || t.step.ReportActivity?) && HasEnded(w.runs, runId)
    requires forall r :: r in w.runs ==> w.runs[r].id == r
    ensures NoNewUpdate(w.rows, Next(s, w, t).rows, runId)
  {
    match t.step
    case RegisterToken(id, device, activity, _) =>
      var (bindings, i) := WithBinding(w.bindings, id, device, activity);
      NoNewBindingPush(w, w.runs[id], i, bindings[i].device, t.now, runId);
    case ReportActivity(device, report) =>
      var (bindings, i) := WithBinding(w.bindings, report.runId, device, report.activity);
      NoNewBindingPush(w, w.runs[report.runId], i, bindings[i].device, t.now, runId);
  }

  /** No step makes an update for a run that has ended, or that the step ends: what still waits was made before. */
  lemma {:induction false} NoUpdateAfterEnd(s: Settings, w: World, t: Tick, runId: Uuid)
    requires Enabled(w, t) && HasEnded(Next(s, w, t).runs, runId)
    requires forall r :: r in w.runs ==> w.runs[r].id == r
    ensures NoNewUpdate(w.rows, Next(s, w, t).rows, runId)
  {
    match t.step
    case AcceptEvent(e, quota) =>
      var run := Apply(w.runs[e.runId], e);
      var with := w.(runs := w.runs[e.runId := run]);
      AcceptedRun(w, e);
      RunsScheduled(s, with, run, ByEvent(e.kind), w.runs[e.runId].progress, quota, t.now);
      NoNewScheduled(s, with, run, ByEvent(e.kind), w.runs[e.runId].progress, quota, t.now, runId);
    case RenameMachine(id, quota) =>
      RunsScheduled(s, w, w.runs[id], MachineRenamed, w.runs[id].progress, quota, t.now);
      NoNewScheduled(s, w, w.runs[id], MachineRenamed, w.runs[id].progress, quota, t.now, runId);
    case Notify(note, quota) => NoNewNotified(w, note, quota, t.now, runId);
    case ProcessOne(i, outcome) => NoNewProcessed(s, w, i, outcome, t.now, runId);
    case RegisterToken(_, _, _, _) => NoNewRegistered(s, w, t, runId);
    case ReportActivity(_, _) => NoNewRegistered(s, w, t, runId);
    case _ =>
  }

  lemma {:induction false} NoUpdateHistory(s: Settings, w: World, more: seq<Tick>, runId: Uuid)
    requires Invariant(s, w) && s.maxAttempts >= 1 && Possible(s, w, more) && HasEnded(w.runs, runId)
    ensures NoNewUpdate(w.rows, After(s, w, more).rows, runId)
    decreases |more|
  {
    if more != [] {
      var next := Next(s, w, more[0]);
      StepKeeps(s, w, more[0]);
      EndedStaysEnded(s, w, more[0], runId);
      NoUpdateAfterEnd(s, w, more[0], runId);
      NoUpdateHistory(s, next, more[1..], runId);
      NoNewOn(w.rows, next.rows, After(s, next, more[1..]).rows, runId);
    }
  }

  /**
   Once a run has ended, failed or lost or not, whatever is ready for it is delivered before
   any routine update, but for updates that waited already when it ended.
   */
  lemma {:induction false} EndedRunComesFirst(s: Settings, ticks: seq<Tick>, more: seq<Tick>, i: nat, outcome: Outcome, now: int, j: nat, runId: Uuid)
    requires s.maxAttempts >= 1 && Possible(s, EMPTY, ticks) && HasEnded(After(s, EMPTY, ticks).runs, runId)
    requires Possible(s, After(s, EMPTY, ticks), more)
    requires Enabled(After(s, After(s, EMPTY, ticks), more), Tick(ProcessOne(i, outcome), now))
    requires var w, rows := After(s, EMPTY, ticks), After(s, After(s, EMPTY, ticks), more).rows;
             && j < |rows| && IsReady(rows[j], now) && RunOf(rows[j].key) == Some(runId)
             && !(j < |w.rows| && IsUpdateOf(w.rows[j], runId) && w.rows[j].payload == rows[j].payload)
    ensures var rows := After(s, After(s, EMPTY, ticks), more).rows;
            rows[j].kind != LIVE_UPDATE && rows[i].priority == rows[j].priority == 10
  {
    var w := After(s, EMPTY, ticks);
    var later := After(s, w, more);
    EmptyFits(s);
    HistoryKeeps(s, EMPTY, ticks);
    HistoryKeeps(s, w, more);
    NoUpdateHistory(s, w, more, runId);
    assert RowFits(later.rows[j], later.runs, s.maxAttempts);
    HistoryUrgent(s, EMPTY, ticks);
    HistoryUrgent(s, w, more);
    HeadIsMostUrgent(later.rows, i, now);
    assert Urgent(later.rows[i].kind, later.rows[i].priority) && Urgent(later.rows[j].kind, later.rows[j].priority);
  }

  // Such an update.

  const NEW_RUN := Run(1, "workspace", "machine", "title", "cli", CREATED, "HEALTHY", NONE,
                       None, None, None, None, 0, None, 0, None, None, None, Automatic, 0)

  const NO_KEYS := Payload(Absent, Absent, Absent, Absent, Absent, Absent, Absent)

  const SPEAKS := Event(11, 1, "machine", 1, RunMessage, 0, NO_KEYS)

  const FAILS := Event(12, 1, "machine", 2, RunFailed, 0, NO_KEYS)

  const SHOWS := Tick(RegisterToken(1, 0, Reported("activity"), 0), 0)

  const DISMISSES := Tick(ReportActivity(0, Report(Reported("activity"), 1, None, DISMISSED, 1)), 0)

  lemma {:induction false} OneMore(s: Settings, w: World, ticks: seq<Tick>, t: Tick)
    requires Possible(s, w, ticks) && Enabled(After(s, w, ticks), t)
    ensures Possible(s, w, ticks + [t]) && After(s, w, ticks + [t]) == Next(s, After(s, w, ticks), t)
    decreases |ticks|
  {
    if ticks == [] {
      assert ticks + [t] == [t] && [t][1..] == [];
    } else {
      assert (ticks + [t])[0] == ticks[0] && (ticks + [t])[1..] == ticks[1..] + [t];
      OneMore(s, Next(s, w, ticks[0]), ticks[1..], t);
    }
  }

  /** The activity of the run is shown. */
  predicate ActivityShown(w: World) {
    && w.rows == [] && w.notes == [] && w.devices == [] && w.runs == map[1 := NEW_RUN]
    && w.bindings == [Binding(1, 0, Reported("activity"), true, 0, ACTIVE, 0, false)]
  }

  lemma {:induction false} ShowsActivity(s: Settings) returns (ticks: seq<Tick>)
    ensures Possible(s, EMPTY, ticks) && ActivityShown(After(s, EMPTY, ticks))
  {
    OneMore(s, EMPTY, [], Tick(NewRun(NEW_RUN), 0));
    OneMore(s, EMPTY, [] + [Tick(NewRun(NEW_RUN), 0)], SHOWS);
    ticks := [] + [Tick(NewRun(NEW_RUN), 0)] + [SHOWS];
  }

  predicate UpdateWaits(w: World) {
    && |w.rows| == 1 && IsUpdateOf(w.rows[0], 1) && w.rows[0].priority == 5 && w.rows[0].availableAt == 0
    && w.notes == [] && w.devices == [] && 1 in w.runs && w.runs[1].id == 1 && w.runs[1].lastSeq == 1 && w.runs[1].status == CREATED
    && |w.bindings| == 1 && w.bindings[0].device == 0 && w.bindings[0].activity == Reported("activity")
  }

  lemma {:induction false} FirstPush(s: Settings, w: World, run: Run, cause: Cause, previous: Option<Progress>, now: int)
    requires |w.bindings| == 1 && GetsLive(w.bindings[0], run.id)
    ensures CoalescedAll([], LivePushes(s, w, run, cause, previous, now, 1), now) == [NewRow(LivePush(s, w, run, 0, cause, previous, now), now)]
  {
    var pushes := LivePushes(s, w, run, cause, previous, now, 1);
    assert LivePushes(s, w, run, cause, previous, now, 0) == [];
    assert pushes == [LivePush(s, w, run, 0, cause, previous, now)] && pushes[..0] == [];
    assert CoalescedAll([], pushes[..0], now) == [];
  }

  lemma {:induction false} SpeaksRows(s: Settings, w: World, run: Run)
    requires w.rows == [] && |w.bindings| == 1 && GetsLive(w.bindings[0], run.id) && run.status == CREATED
    ensures var after := Scheduled(s, w, run, ByEvent(RunMessage), None, false, 0);
            after.rows == [NewRow(LivePush(s, w, run, 0, ByEvent(RunMessage), None, 0), 0)] && after.bindings == w.bindings
            && after.runs == w.runs && after.notes == w.notes && after.devices == w.devices
  {
    assert Restarted(w.rows, run, 0) == [];
    assert w.(rows := []) == w;
    FirstPush(s, w, run, ByEvent(RunMessage), None, 0);
  }

  lemma {:induction false} SpeaksOf(s: Settings, w: World)
    requires ActivityShown(w)
    ensures Enabled(w, Tick(AcceptEvent(SPEAKS, false), 0)) && UpdateWaits(Next(s, w, Tick(AcceptEvent(SPEAKS, false), 0)))
  {
    var run := Apply(NEW_RUN, SPEAKS);
    var with := w.(runs := w.runs[1 := run]);
    SpeaksRows(s, with, run);
    assert Next(s, w, Tick(AcceptEvent(SPEAKS, false), 0)) == Scheduled(s, with, run, ByEvent(RunMessage), None, false, 0);
  }

  lemma {:induction false} DismissesOf(s: Settings, w: World)
    requires UpdateWaits(w)
    ensures var next := Next(s, w, DISMISSES); Enabled(w, DISMISSES) && UpdateWaits(next) && next.bindings[0].state == DISMISSED
  {
  }

  lemma {:induction false} FailsOf(s: Settings, w: World)
    requires UpdateWaits(w) && w.bindings[0].state == DISMISSED
    ensures var t := Tick(AcceptEvent(FAILS, false), 0);
            Enabled(w, t) && var next := Next(s, w, t); HasEnded(next.runs, 1) && |next.rows| == 1 && IsUpdateOf(next.rows[0], 1) && next.rows[0].priority == 5
  {
    var run := Apply(w.runs[1], FAILS);
    var with := w.(runs := w.runs[1 := run]);
    var restarted := with.(rows := Restarted(with.rows, run, 0));
    assert restarted.rows == w.rows;
    var ended := FellBack(restarted, run, false, 0);
    assert ended.rows == w.rows && ended.bindings == w.bindings;
    assert LivePushes(s, ended, run, ByEvent(RunFailed), w.runs[1].progress, 0, 0) == [];
    assert LivePushes(s, ended, run, ByEvent(RunFailed), w.runs[1].progress, 0, 1) == [];
  }

  /** A history after which a routine update waits for a run that has failed: its activity was dismissed in between. */
  lemma {:induction false} UpdateIsLeftOver(s: Settings) returns (ticks: seq<Tick>)
    ensures Possible(s, EMPTY, ticks)
    ensures var w := After(s, EMPTY, ticks); HasEnded(w.runs, 1) && |w.rows| == 1 && IsUpdateOf(w.rows[0], 1) && w.rows[0].priority == 5
  {
    ticks := ShowsActivity(s);
    SpeaksOf(s, After(s, EMPTY, ticks));
    OneMore(s, EMPTY, ticks, Tick(AcceptEvent(SPEAKS, false), 0));
    ticks := ticks + [Tick(AcceptEvent(SPEAKS, false), 0)];
    DismissesOf(s, After(s, EMPTY, ticks));
    OneMore(s, EMPTY, ticks, DISMISSES);
    ticks := ticks + [DISMISSES];
    FailsOf(s, After(s, EMPTY, ticks));
    OneMore(s, EMPTY, ticks, Tick(AcceptEvent(FAILS, false), 0));
    ticks := ticks + [Tick(AcceptEvent(FAILS, false), 0)];
  }
}
