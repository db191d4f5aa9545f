/** The laws of the outbox over whole histories. */
module OutboxLaws {
  import opened Wrappers
  import opened Events
  import opened Ingest
  import opened Outbox
  import opened OutboxRuns

  // Delivery.

  lemma {:induction false} ClosedMarked(rows: seq<Row>, i: nat, state: PushState, now: int, runs: map<Uuid, Run>, max: nat)
    requires RowsFit(rows, runs, max) && i < |rows| && rows[i].state == PENDING && state != PENDING
    ensures AllMarked(rows, rows[i := rows[i].(state := state, updatedAt := now)], runs)
  {
    forall j | 0 <= j < |rows| ensures Marked(rows[j], rows[i := rows[i].(state := state, updatedAt := now)][j], runs) {
      assert RowFits(rows[j], runs, max);
    }
  }

  /** What a send does to the rows: one of them moves on. */
  lemma AnsweredRow(s: Settings, w: World, i: nat, outcome: Outcome, now: int)
    requires i < |w.rows|
    ensures var after := Answered(s, Attempted(w, i, outcome, now), i, outcome, now);
            && after.runs == w.runs && |after.rows| == |w.rows| && after.rows == w.rows[i := after.rows[i]]
            && AfterSend(w.rows[i], after.rows[i], s.maxAttempts)
            && (outcome.Accepted? <==> after.rows[i].state == SENT)
            && after.attempts == w.attempts + [Attempt(i, w.rows[i].key, w.rows[i].kind, w.rows[i].payload.sequence, now, outcome.Accepted?)]
            && after.notes == w.notes
            && (w.rows[i].state == PENDING ==> after.rows[i].state == PENDING ==> outcome == Retryable)
    requires w.rows[i].state == PENDING
  {
  }

  lemma {:induction false} SendKeeps(s: Settings, w: World, i: nat, outcome: Outcome, now: int)
    requires Ready(s, w) && SendsAscend(w.attempts) && i < |w.rows| && w.rows[i].state == PENDING
    ensures var after := Answered(s, Attempted(w, i, outcome, now), i, outcome, now);
            RowsKept(after.rows, w.runs, s.maxAttempts, after.attempts) && SendsAscend(after.attempts) && RowsEvolve(w.rows, after.rows)
  {
    var after := Answered(s, Attempted(w, i, outcome, now), i, outcome, now);
    AnsweredRow(s, w, i, outcome, now);
    var b, a := after.rows[i], after.attempts[|w.attempts|];
    assert RowFits(w.rows[i], w.runs, s.maxAttempts);
    SentCounts(w.rows, i, b, w.attempts, a, s.maxAttempts);
    SentIsNewer(w.rows, i, b, w.attempts, a, s.maxAttempts);
    OnePendingUpdate(w.rows, i, b);
  }

  lemma {:induction false} ProcessedKeeps(s: Settings, w: World, i: nat, outcome: Outcome, now: int)
    requires Ready(s, w) && SendsAscend(w.attempts) && i < |w.rows| && w.rows[i].state == PENDING
    ensures var after := Processed(s, w, i, outcome, now);
            && after.runs == w.runs && after.notes == w.notes
            && RowsKept(after.rows, w.runs, s.maxAttempts, after.attempts) && SendsAscend(after.attempts) && RowsEvolve(w.rows, after.rows)
  {
    if Sends(s, w, i, now) {
      SendKeeps(s, w, i, outcome, now);
      AnsweredRow(s, w, i, outcome, now);
    } else {
      var state := if IsExpired(w.rows[i], now) then EXPIRED else if !HasCapacity(s, w, w.rows[i]) then SUPPRESSED else CANCELLED_PUSH;
      ClosedMarked(w.rows, i, state, now, w.runs, s.maxAttempts);
      MarkedKeeps(w.rows, Closed(w, i, state, now).rows, w.runs, w.runs, s.maxAttempts, w.attempts);
    }
  }

  // Registration and cancellation.

  lemma {:induction false} OneCoalescedKeeps(s: Settings, w: World, run: Run, b: nat, device: nat, now: int)
    requires Ready(s, w) && run.id in w.runs && w.runs[run.id] == run
    ensures var rows := Coalesced(w.rows, BindingPush(run, b, device, now), now);
            RowsKept(rows, w.runs, s.maxAttempts, w.attempts) && RowsEvolve(w.rows, rows)
  {
    CoalescedKeeps(w.rows, BindingPush(run, b, device, now), now, w.runs, s.maxAttempts, w.attempts);
  }

  lemma {:induction false} NothingMoves(s: Settings, w: World)
    requires Ready(s, w)
    ensures RowsEvolve(w.rows, w.rows)
  {
  }

  lemma {:induction false} CancelledKeeps(s: Settings, w: World, rows: seq<Row>, now: int)
    requires Ready(s, w) && |rows| == |w.rows|
    requires forall i :: 0 <= i < |rows| ==> rows[i] == CancelledRow(w.rows[i], true, now) || rows[i] == w.rows[i]
    ensures RowsKept(rows, w.runs, s.maxAttempts, w.attempts) && RowsEvolve(w.rows, rows)
  {
    forall i | 0 <= i < |rows| ensures Marked(w.rows[i], rows[i], w.runs) {
      assert RowFits(w.rows[i], w.runs, s.maxAttempts);
    }
    MarkedKeeps(w.rows, rows, w.runs, w.runs, s.maxAttempts, w.attempts);
  }

  // Steps.

  lemma ApplyKeepsId(run: Run, e: Event)
    ensures var next := Apply(run, e);
            && next.id == run.id && next.lastSeq == e.seqNo
            && next.status == match EventStatus(e.kind)
                              case Some(status) => status
                              case None => run.status
  {
  }

  lemma {:induction false} AcceptKeeps(s: Settings, w: World, t: Tick)
    requires Invariant(s, w) && s.maxAttempts >= 1 && Enabled(w, t) && t.step.AcceptEvent?
    ensures Invariant(s, Next(s, w, t)) && RowsEvolve(w.rows, Next(s, w, t).rows)
    ensures Next(s, w, t).runs == w.runs[t.step.e.runId := Apply(w.runs[t.step.e.runId], t.step.e)]
  {
    var e := t.step.e;
    var run := Apply(w.runs[e.runId], e);
    ApplyKeepsId(w.runs[e.runId], e);
    ScheduledKeeps(s, w.runs, w.(runs := w.runs[e.runId := run]), run, ByEvent(e.kind), w.runs[e.runId].progress, t.step.quota, t.now);
  }

  lemma {:induction false} RenameKeeps(s: Settings, w: World, t: Tick)
    requires Invariant(s, w) && s.maxAttempts >= 1 && Enabled(w, t) && t.step.RenameMachine?
    ensures Invariant(s, Next(s, w, t)) && RowsEvolve(w.rows, Next(s, w, t).rows)
  {
    var run := w.runs[t.step.runId];
    assert w.runs[run.id := run] == w.runs;
    ScheduledKeeps(s, w.runs, w, run, MachineRenamed, run.progress, t.step.quota, t.now);
  }

  lemma {:induction false} RunsKeep(s: Settings, w: World, runs: map<Uuid, Run>)
    requires Invariant(s, w) && s.maxAttempts >= 1 && RunsAdvance(w.runs, runs) && forall r :: r in runs ==> runs[r].id == r
    requires forall r :: r in w.runs ==> runs[r].status == w.runs[r].status
    ensures Invariant(s, w.(runs := runs)) && RowsEvolve(w.rows, w.rows)
  {
    forall i | 0 <= i < |w.rows| && w.rows[i].state == PENDING && w.rows[i].kind == LIVE_START
      ensures RunOf(w.rows[i].key).Some? && KnownRuns(runs, w.rows[i].key) && !IsTerminal(runs[RunOf(w.rows[i].key).value].status)
    {
      assert RowFits(w.rows[i], w.runs, s.maxAttempts);
    }
    UntouchedMarked(w.rows, runs);
    MarkedKeeps(w.rows, w.rows, w.runs, runs, s.maxAttempts, w.attempts);
  }

  lemma {:induction false} RegisterKeeps(s: Settings, w: World, t: Tick)
    requires Invariant(s, w) && s.maxAttempts >= 1 && Enabled(w, t) && (t.step.RegisterToken? || t.step.ReportActivity?)
    ensures Invariant(s, Next(s, w, t)) && RowsEvolve(w.rows, Next(s, w, t).rows)
  {
    NothingMoves(s, w);
    match t.step
    case RegisterToken(runId, device, activity, _) =>
      var (bindings, i) := WithBinding(w.bindings, runId, device, activity);
      OneCoalescedKeeps(s, w, w.runs[runId], i, bindings[i].device, t.now);
    case ReportActivity(device, report) =>
      var (bindings, i) := WithBinding(w.bindings, report.runId, device, report.activity);
      OneCoalescedKeeps(s, w, w.runs[report.runId], i, bindings[i].device, t.now);
  }

  lemma {:induction false} CancelKeeps(s: Settings, w: World, t: Tick)
    requires Invariant(s, w) && s.maxAttempts >= 1 && Enabled(w, t) && (t.step.StopReceiving? || t.step.RevokeMachine? || t.step.ResetDevice?)
    ensures Invariant(s, Next(s, w, t)) && RowsEvolve(w.rows, Next(s, w, t).rows)
  {
    CancelledKeeps(s, w, Next(s, w, t).rows, t.now);
  }

  /** Every step keeps the invariant, and rows only move forward. */
  lemma {:induction false} StepKeeps(s: Settings, w: World, t: Tick)
    requires Invariant(s, w) && s.maxAttempts >= 1 && Enabled(w, t)
    ensures Invariant(s, Next(s, w, t)) && RowsEvolve(w.rows, Next(s, w, t).rows)
  {
    NothingMoves(s, w);
    match t.step
    case NewRun(run) => RunsKeep(s, w, Next(s, w, t).runs);
    case PutAgain(_, _, _, _, _, _) => RunsKeep(s, w, Next(s, w, t).runs);
    case AcceptEvent(_, _) => AcceptKeeps(s, w, t);
    case RenameMachine(_, _) => RenameKeeps(s, w, t);
    case Notify(note, quota) => NotifiedKeeps(s, w, note, quota, t.now);
    case ProcessOne(i, outcome) => ProcessedKeeps(s, w, i, outcome, t.now);
    case RegisterToken(_, _, _, _) => RegisterKeeps(s, w, t);
    case ReportActivity(_, _) => RegisterKeeps(s, w, t);
    case StopReceiving(_, _) => CancelKeeps(s, w, t);
    case RevokeMachine(_) => CancelKeeps(s, w, t);
    case ResetDevice(_) => CancelKeeps(s, w, t);
    case EndUnreported(_, _) =>
    case Configure(_, _) =>
  }

  lemma {:induction false} HistoryKeeps(s: Settings, w: World, ticks: seq<Tick>)
    requires Invariant(s, w) && s.maxAttempts >= 1 && Possible(s, w, ticks)
    ensures Invariant(s, After(s, w, ticks)) && RowsEvolve(w.rows, After(s, w, ticks).rows)
    decreases |ticks|
  {
    if ticks != [] {
      var next := Next(s, w, ticks[0]);
      StepKeeps(s, w, ticks[0]);
      HistoryKeeps(s, next, ticks[1..]);
      EvolveOn(w.rows, next.rows, After(s, next, ticks[1..]).rows);
    } else {
      NothingMoves(s, w);
    }
  }

  lemma EmptyFits(s: Settings)
    ensures Invariant(s, EMPTY)
  {
  }

  /**
   In every history: one pending row per key at most; as many attempts are recorded for a
   row as it counts, never more than allowed; the states of a run that were delivered
   under one key never go back; no start of an activity waits for a run that has ended;
   no run has two fallback notifications.
   */
  lemma {:induction false} OutboxIsSound(s: Settings, ticks: seq<Tick>)
    requires s.maxAttempts >= 1 && Possible(s, EMPTY, ticks)
    ensures var w := After(s, EMPTY, ticks);
            && OnePending(w.rows)
            && (forall i :: 0 <= i < |w.rows| ==> AttemptsOn(w.attempts, i) == w.rows[i].attempts <= s.maxAttempts)
            && SendsAscend(w.attempts)
            && (forall i, runId :: 0 <= i < |w.rows| && runId in w.runs && IsTerminal(w.runs[runId].status) ==> !IsPendingStart(w.rows[i], runId))
            && Fallbacks(w.notes)
  {
    EmptyFits(s);
    HistoryKeeps(s, EMPTY, ticks);
    var w := After(s, EMPTY, ticks);
    forall i, runId | 0 <= i < |w.rows| && runId in w.runs && IsTerminal(w.runs[runId].status)
      ensures !IsPendingStart(w.rows[i], runId)
    {
      assert RowFits(w.rows[i], w.runs, s.maxAttempts);
    }
  }

  /** A row that has left the pending state never changes again, and no row loses priority. */
  lemma {:induction false} RowsOnlyMoveOn(s: Settings, ticks: seq<Tick>, more: seq<Tick>, i: nat)
    requires s.maxAttempts >= 1 && Possible(s, EMPTY, ticks) && Possible(s, After(s, EMPTY, ticks), more)
    requires i < |After(s, EMPTY, ticks).rows|
    ensures var before, rows := After(s, EMPTY, ticks).rows[i], After(s, After(s, EMPTY, ticks), more).rows;
            && i < |rows|
            && (before.state != PENDING ==> rows[i] == before)
            && before.priority <= rows[i].priority
            && (before.key, before.target) == (rows[i].key, rows[i].target)
  {
    EmptyFits(s);
    HistoryKeeps(s, EMPTY, ticks);
    HistoryKeeps(s, After(s, EMPTY, ticks), more);
  }

  // Runs that have ended.

  /** A step records no attempt, or one for a row that was pending. */
  lemma {:induction false} AttemptStep(s: Settings, w: World, t: Tick)
    requires Enabled(w, t)
    ensures var after := Next(s, w, t);
            || after.attempts == w.attempts
            || (t.step.ProcessOne? && w.rows[t.step.i].state == PENDING && |after.attempts| == |w.attempts| + 1
                && w.attempts == after.attempts[..|w.attempts|]
                && (after.attempts[|w.attempts|].key, after.attempts[|w.attempts|].kind) == (w.rows[t.step.i].key, w.rows[t.step.i].kind))
  {
    if t.step.ProcessOne? && Sends(s, w, t.step.i, t.now) {
      AnsweredRow(s, w, t.step.i, t.step.outcome, t.now);
    }
  }

  lemma {:induction false} EndedStaysEnded(s: Settings, w: World, t: Tick, runId: Uuid)
    requires Invariant(s, w) && s.maxAttempts >= 1 && Enabled(w, t) && runId in w.runs && IsTerminal(w.runs[runId].status)
    ensures runId in Next(s, w, t).runs && Next(s, w, t).runs[runId].status == w.runs[runId].status
  {
    match t.step
    case AcceptEvent(_, _) => AcceptKeeps(s, w, t);
    case ProcessOne(i, outcome) => ProcessedKeeps(s, w, i, outcome, t.now);
    case RenameMachine(_, _) =>
      var run := w.runs[t.step.runId];
      assert w.runs[run.id := run] == w.runs;
      ScheduledKeeps(s, w.runs, w, run, MachineRenamed, run.progress, t.step.quota, t.now);
    case _ =>
  }

  predicate StartsRun(a: Attempt, runId: Uuid) {
    a.kind == LIVE_START && RunOf(a.key) == Some(runId)
  }

  /** What a history adds to the attempts starts no activity for a run. */
  predicate NoNewStart(before: seq<Attempt>, after: seq<Attempt>, runId: Uuid) {
    before <= after && forall a :: |before| <= a < |after| ==> !StartsRun(after[a], runId)
  }

  lemma {:induction false} NoStartStep(s: Settings, w: World, t: Tick, runId: Uuid)
    requires Invariant(s, w) && s.maxAttempts >= 1 && Enabled(w, t) && runId in w.runs && IsTerminal(w.runs[runId].status)
    ensures NoNewStart(w.attempts, Next(s, w, t).attempts, runId)
  {
    AttemptStep(s, w, t);
    if t.step.ProcessOne? {
      assert RowFits(w.rows[t.step.i], w.runs, s.maxAttempts);
    }
  }

  lemma {:induction false} NoStartHistory(s: Settings, w: World, ticks: seq<Tick>, runId: Uuid)
    requires Invariant(s, w) && s.maxAttempts >= 1 && Possible(s, w, ticks) && runId in w.runs && IsTerminal(w.runs[runId].status)
    ensures NoNewStart(w.attempts, After(s, w, ticks).attempts, runId)
    ensures runId in After(s, w, ticks).runs && After(s, w, ticks).runs[runId].status == w.runs[runId].status
    decreases |ticks|
  {
    if ticks != [] {
      var next := Next(s, w, ticks[0]);
      StepKeeps(s, w, ticks[0]);
      EndedStaysEnded(s, w, ticks[0], runId);
      NoStartStep(s, w, ticks[0], runId);
      NoStartHistory(s, next, ticks[1..], runId);
    }
  }

  /** Once a run has ended it stays ended, and no start of an activity is pending for it or sent for it again. */
  lemma {:induction false} NoStartAfterEnd(s: Settings, ticks: seq<Tick>, more: seq<Tick>, runId: Uuid)
    requires s.maxAttempts >= 1 && Possible(s, EMPTY, ticks) && Possible(s, After(s, EMPTY, ticks), more)
    requires var w := After(s, EMPTY, ticks); runId in w.runs && IsTerminal(w.runs[runId].status)
    ensures var w, after := After(s, EMPTY, ticks), After(s, After(s, EMPTY, ticks), more);
            && runId in after.runs && after.runs[runId].status == w.runs[runId].status
            && NoNewStart(w.attempts, after.attempts, runId)
            && forall i :: 0 <= i < |after.rows| ==> !IsPendingStart(after.rows[i], runId)
  {
    var w := After(s, EMPTY, ticks);
    EmptyFits(s);
    HistoryKeeps(s, EMPTY, ticks);
    NoStartHistory(s, w, more, runId);
    HistoryKeeps(s, w, more);
    var after := After(s, w, more);
    forall i | 0 <= i < |after.rows| ensures !IsPendingStart(after.rows[i], runId) {
      assert RowFits(after.rows[i], after.runs, s.maxAttempts);
    }
  }

  // Fallbacks.

  lemma {:induction false} CoalescedAllSent(rows: seq<Row>, pushes: seq<Push>, now: int, runId: Uuid)
    ensures StartSent(CoalescedAll(rows, pushes, now), runId) == StartSent(rows, runId)
    decreases |pushes|
  {
    if pushes != [] {
      var n := |pushes| - 1;
      CoalescedAllSent(rows, pushes[..n], now, runId);
      CoalescedSent(CoalescedAll(rows, pushes[..n], now), pushes[n], now, runId);
    }
  }

  lemma {:induction false} CoalescedSent(rows: seq<Row>, p: Push, now: int, runId: Uuid)
    ensures StartSent(Coalesced(rows, p, now), runId) == StartSent(rows, runId)
  {
    var next := Coalesced(rows, p, now);
    if StartSent(rows, runId) {
      var i :| 0 <= i < |rows| && rows[i].runId == Some(runId) && rows[i].kind == LIVE_START && rows[i].state == SENT;
      assert next[i] == rows[i];
    }
    if StartSent(next, runId) {
      var i :| 0 <= i < |next| && next[i].runId == Some(runId) && next[i].kind == LIVE_START && next[i].state == SENT;
      assert rows[i] == next[i];
    }
  }

  lemma {:induction false} RestartedSent(rows: seq<Row>, run: Run, now: int, runId: Uuid)
    ensures StartSent(Restarted(rows, run, now), runId) == StartSent(rows, runId)
  {
    var next := Restarted(rows, run, now);
    assert forall i :: 0 <= i < |rows| ==>
      (next[i].state == SENT <==> rows[i].state == SENT) && next[i].runId == rows[i].runId && next[i].kind == rows[i].kind;
    if StartSent(rows, runId) {
      var i :| 0 <= i < |rows| && rows[i].runId == Some(runId) && rows[i].kind == LIVE_START && rows[i].state == SENT;
      assert next[i].state == SENT;
    }
  }

  function CountNotes(notes: seq<Note>, workspaceId: string, dedupe: Dedupe): nat {
    if notes == [] then 0
    else CountNotes(notes[..|notes| - 1], workspaceId, dedupe)
         + if notes[|notes| - 1].workspaceId == workspaceId && notes[|notes| - 1].dedupe == dedupe then 1 else 0
  }

  lemma {:induction false} AtMostOneNote(notes: seq<Note>, workspaceId: string, dedupe: Dedupe)
    requires Fallbacks(notes) && dedupe.Fallback?
    ensures CountNotes(notes, workspaceId, dedupe) == if HasNote(notes, workspaceId, dedupe) then 1 else 0
    decreases |notes|
  {
    if notes != [] {
      var n := |notes| - 1;
      var init, last := notes[..n], notes[n];
      AtMostOneNote(init, workspaceId, dedupe);
      if HasNote(init, workspaceId, dedupe) {
        var i :| 0 <= i < n && init[i].workspaceId == workspaceId && init[i].dedupe == dedupe;
        assert notes[i] == init[i];
      }
      if HasNote(notes, workspaceId, dedupe) && !(last.workspaceId == workspaceId && last.dedupe == dedupe) {
        var i :| 0 <= i < |notes| && notes[i].workspaceId == workspaceId && notes[i].dedupe == dedupe;
        assert init[i] == notes[i];
      }
    }
  }

  /** What scheduling for a run that has just ended does to the notifications. */
  lemma {:induction false} FallbackStep(s: Settings, w: World, run: Run, cause: Cause, previous: Option<Progress>, quota: bool, now: int)
    requires !Starts(cause) && IsTerminal(run.status)
    ensures var after := Scheduled(s, w, run, cause, previous, quota, now);
            && StartSent(after.rows, run.id) == StartSent(w.rows, run.id)
            && after.notes == match FallbackLevel(w.rows, run)
                 case None => w.notes
                 case Some(level) =>
                   if HasNote(w.notes, run.workspaceId, Fallback(run.id)) || !quota then w.notes
                   else w.notes + [Note(run.workspaceId, Some(run.machineId), Some(run.id), level, Fallback(run.id))]
  {
    var restarted := w.(rows := Restarted(w.rows, run, now));
    RestartedSent(w.rows, run, now, run.id);
    var ended := FellBack(restarted, run, quota, now);
    assert StartSent(ended.rows, run.id) == StartSent(w.rows, run.id) by {
      FellBackSent(restarted, run, quota, now);
    }
    CoalescedAllSent(ended.rows, LivePushes(s, ended, run, cause, previous, now, |ended.bindings|), now, run.id);
  }

  lemma {:induction false} FellBackSent(w: World, run: Run, quota: bool, now: int)
    ensures StartSent(FellBack(w, run, quota, now).rows, run.id) == StartSent(w.rows, run.id)
  {
    match FallbackLevel(w.rows, run)
    case Some(level) =>
      var note := Note(run.workspaceId, Some(run.machineId), Some(run.id), level, Fallback(run.id));
      CoalescedAllSent(w.rows, NotePushes(w, note, |w.notes|, now, |w.devices|), now, run.id);
    case None =>
  }

  /**
   When a run fails or is lost, the user was told by an activity that was started, or by
   exactly one fallback notification, or the quota of the day was used up; and there is
   no fallback besides a started activity unless there was one before.
   */
  lemma {:induction false} FailureIsTold(s: Settings, ticks: seq<Tick>, t: Tick)
    requires s.maxAttempts >= 1 && Possible(s, EMPTY, ticks) && Enabled(After(s, EMPTY, ticks), t)
    requires t.step.AcceptEvent? && (t.step.e.kind == RunFailed || t.step.e.kind == RunLost)
    ensures var w := After(s, EMPTY, ticks);
            var after, run := Next(s, w, t), w.runs[t.step.e.runId];
            var fallbacks := CountNotes(after.notes, run.workspaceId, Fallback(run.id));
            && (StartSent(after.rows, run.id) || fallbacks == 1 || !t.step.quota)
            && fallbacks <= 1
            && (StartSent(after.rows, run.id) ==> after.notes == w.notes)
  {
    var w, e := After(s, EMPTY, ticks), t.step.e;
    EmptyFits(s);
    HistoryKeeps(s, EMPTY, ticks);
    StepKeeps(s, w, t);
    var after, run := Next(s, w, t), Apply(w.runs[e.runId], e);
    ApplyKeepsId(w.runs[e.runId], e);
    assert run.workspaceId == w.runs[e.runId].workspaceId;
    FallbackStep(s, w.(runs := w.runs[e.runId := run]), run, ByEvent(e.kind), w.runs[e.runId].progress, t.step.quota, t.now);
    AtMostOneNote(after.notes, run.workspaceId, Fallback(run.id));
    if !StartSent(w.rows, run.id) && t.step.quota && !HasNote(w.notes, run.workspaceId, Fallback(run.id)) {
      assert after.notes[|w.notes|].dedupe == Fallback(run.id);
    }
  }
}
