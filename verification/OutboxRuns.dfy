/**
 The outbox as a state machine, and what its rows keep in every history: one pending
 row per key, rows that never come back or lose priority, bounded attempts, ordered
 run states, and no start of an activity for a run that has ended.
 */
module OutboxRuns {
  import opened Wrappers
  import opened Events
  import opened Ingest
  import opened Outbox

  datatype Step =
    | NewRun(run: Run)
    | PutAgain(runId: Uuid, title: string, source: string, health: string, attention: Attention, policy: LivePolicy)
    | AcceptEvent(e: Event, quota: bool)
    | RenameMachine(runId: Uuid, quota: bool)
    | Notify(note: Note, quota: bool)
    | ProcessOne(i: nat, outcome: Outcome)
    | RegisterToken(runId: Uuid, device: nat, activity: Activity, generation: nat)
    | ReportActivity(device: nat, report: Report)
    | EndUnreported(device: nat, supplied: set<Activity>)
    | StopReceiving(machineId: string, device: nat)
    | RevokeMachine(machineId: string)
    | ResetDevice(device: nat)
    | Configure(devices: seq<Device>, subscriptions: set<(string, nat)>)

  /** A transaction and its clock. */
  datatype Tick = Tick(step: Step, now: int)

  const EMPTY := World(map[], {}, [], [], [], [], [])

  predicate Enabled(w: World, t: Tick) {
    match t.step
    case NewRun(run) => run.id !in w.runs && run.status == CREATED && run.lastSeq == 0
    case PutAgain(runId, _, _, _, _, _) => runId in w.runs && w.runs[runId].id == runId
    case AcceptEvent(e, _) =>
      && e.runId in w.runs && w.runs[e.runId].id == e.runId
      && e.seqNo > w.runs[e.runId].lastSeq && Transition(w.runs[e.runId], e) == None
    case RenameMachine(runId, _) => runId in w.runs && w.runs[runId].id == runId && !IsTerminal(w.runs[runId].status)
    case Notify(note, _) => !note.dedupe.Fallback?
    case ProcessOne(i, _) => IsHead(w.rows, i, t.now)
    case RegisterToken(runId, _, _, _) => runId in w.runs
    case ReportActivity(_, report) => report.runId in w.runs
    case ResetDevice(device) => device < |w.devices|
    case _ => true
  }

  function Next(s: Settings, w: World, t: Tick): World
    requires Enabled(w, t)
  {
    match t.step
    case NewRun(run) => w.(runs := w.runs[run.id := run])
    case PutAgain(runId, title, source, health, attention, policy) =>
      w.(runs := w.runs[runId := w.runs[runId].(title := title, source := source, health := health, attention := attention, policy := policy)])
    case AcceptEvent(e, quota) =>
      var run := Apply(w.runs[e.runId], e);
      Scheduled(s, w.(runs := w.runs[e.runId := run]), run, ByEvent(e.kind), w.runs[e.runId].progress, quota, t.now)
    case RenameMachine(runId, quota) =>
      Scheduled(s, w, w.runs[runId], MachineRenamed, w.runs[runId].progress, quota, t.now)
    case Notify(note, quota) => Notified(w, note, quota, t.now)
    case ProcessOne(i, outcome) => Processed(s, w, i, outcome, t.now)
    case RegisterToken(runId, device, activity, generation) => TokenRegistered(w, runId, device, activity, generation, t.now)
    case ReportActivity(device, report) => ActivityReported(w, device, report, t.now)
    case EndUnreported(device, supplied) => w.(bindings := UnreportedEnded(w.bindings, device, supplied))
    case StopReceiving(machineId, device) => StoppedReceiving(w, machineId, device, t.now)
    case RevokeMachine(machineId) => Revoked(w, machineId, t.now)
    case ResetDevice(device) => DeviceReset(w, device, t.now)
    case Configure(devices, subscriptions) => w.(devices := devices, subscriptions := subscriptions)
  }

  ghost predicate Possible(s: Settings, w: World, ticks: seq<Tick>)
    decreases |ticks|
  {
    ticks == [] || (Enabled(w, ticks[0]) && Possible(s, Next(s, w, ticks[0]), ticks[1..]))
  }

  ghost function After(s: Settings, w: World, ticks: seq<Tick>): World
    requires Possible(s, w, ticks)
    decreases |ticks|
  {
    if ticks == [] then w else After(s, Next(s, w, ticks[0]), ticks[1..])
  }

  // What rows keep.

  function RunOf(key: Key): Option<Uuid> {
    match key
    case LiveKey(run, _) => Some(run)
    case StartKey(run, _) => Some(run)
    case NoteKey(_, _) => None
  }

  predicate KeyFits(key: Key, kind: PushKind, target: Target, runId: Option<Uuid>) {
    match key
    case LiveKey(run, _) => runId == Some(run) && (kind == LIVE_UPDATE || kind == LIVE_END)
    case StartKey(run, device) => runId == Some(run) && kind == LIVE_START && target == DeviceTarget(device)
    case NoteKey(_, device) => kind == NOTIFICATION && target == DeviceTarget(device)
  }

  /** The sequence number that a payload for a run shows. */
  function Shown(run: Run): nat {
    if run.lastSeq >= 1 then run.lastSeq else 1
  }

  predicate KnownRuns(runs: map<Uuid, Run>, key: Key) {
    RunOf(key).Some? ==> RunOf(key).value in runs
  }

  predicate RowFits(r: Row, runs: map<Uuid, Run>, max: nat) {
    && KeyFits(r.key, r.kind, r.target, r.runId) && KnownRuns(runs, r.key)
    && (RunOf(r.key).Some? ==> r.payload.sequence <= Shown(runs[RunOf(r.key).value]))
    && r.attempts <= max && (r.state == PENDING ==> r.attempts < max)
    && (r.state == PENDING && r.kind == LIVE_START ==> RunOf(r.key).Some? && !IsTerminal(runs[RunOf(r.key).value].status))
  }

  predicate OnePending(rows: seq<Row>) {
    forall j, k :: 0 <= j < k < |rows| && rows[j].state == PENDING && rows[k].state == PENDING ==> rows[j].key != rows[k].key
  }

  /** A send about a run. */
  predicate ShowsRun(a: Attempt) {
    RunOf(a.key).Some?
  }

  /** What was sent is at most as new as what a pending row with its key will show. */
  predicate PendingIsNewer(rows: seq<Row>, attempts: seq<Attempt>) {
    forall i, a :: 0 <= i < |rows| && 0 <= a < |attempts| && ShowsRun(attempts[a]) && IsPending(rows[i], attempts[a].key) ==>
      attempts[a].sequence <= rows[i].payload.sequence
  }

  predicate RowsFit(rows: seq<Row>, runs: map<Uuid, Run>, max: nat) {
    OnePending(rows) && forall i :: 0 <= i < |rows| ==> RowFits(rows[i], runs, max)
  }

  predicate AttemptFits(a: Attempt, runs: map<Uuid, Run>) {
    RunOf(a.key).Some? ==> RunOf(a.key).value in runs && a.sequence <= Shown(runs[RunOf(a.key).value])
  }

  predicate SendsAscend(attempts: seq<Attempt>) {
    forall a, b :: 0 <= a < b < |attempts| && ShowsRun(attempts[a]) && ShowsRun(attempts[b]) && attempts[a].key == attempts[b].key ==>
      attempts[a].sequence <= attempts[b].sequence
  }

  function AttemptsOn(attempts: seq<Attempt>, row: nat): nat {
    if attempts == [] then 0
    else AttemptsOn(attempts[..|attempts| - 1], row) + if attempts[|attempts| - 1].row == row then 1 else 0
  }

  predicate AttemptsCounted(rows: seq<Row>, attempts: seq<Attempt>) {
    && (forall i :: 0 <= i < |rows| ==> AttemptsOn(attempts, i) == rows[i].attempts)
    && (forall a :: 0 <= a < |attempts| ==> attempts[a].row < |rows| && attempts[a].key == rows[attempts[a].row].key)
  }

  predicate Fallbacks(notes: seq<Note>) {
    forall j, k :: 0 <= j < k < |notes| && notes[j].dedupe.Fallback? && notes[j].workspaceId == notes[k].workspaceId
                   ==> notes[j].dedupe != notes[k].dedupe
  }

  predicate Invariant(s: Settings, w: World) {
    && (forall r :: r in w.runs ==> w.runs[r].id == r)
    && RowsFit(w.rows, w.runs, s.maxAttempts)
    && (forall a :: 0 <= a < |w.attempts| ==> AttemptFits(w.attempts[a], w.runs))
    && SendsAscend(w.attempts) && PendingIsNewer(w.rows, w.attempts) && AttemptsCounted(w.rows, w.attempts)
    && Fallbacks(w.notes)
  }

  /** How a row may change: not at all once it has left the pending state. */
  predicate RowEvolves(a: Row, b: Row) {
    && (a.key, a.target, a.runId, a.createdAt) == (b.key, b.target, b.runId, b.createdAt)
    && (a.state != PENDING ==> b == a)
    && a.priority <= b.priority && a.attempts <= b.attempts
  }

  predicate RowsEvolve(a: seq<Row>, b: seq<Row>) {
    |a| <= |b| && forall i :: 0 <= i < |a| ==> RowEvolves(a[i], b[i])
  }

  lemma {:induction false} EvolveOn(a: seq<Row>, b: seq<Row>, c: seq<Row>)
    requires RowsEvolve(a, b) && RowsEvolve(b, c)
    ensures RowsEvolve(a, c)
  {
  }

  // Coalescing keeps it.

  predicate PushFits(p: Push, runs: map<Uuid, Run>) {
    && KeyFits(p.key, p.kind, p.target, p.runId) && KnownRuns(runs, p.key)
    && (RunOf(p.key).Some? ==> p.payload.sequence == Shown(runs[RunOf(p.key).value]))
    && (p.kind == LIVE_START ==> RunOf(p.key).Some? && !IsTerminal(runs[RunOf(p.key).value].status))
  }

  /** A push may also find a pending row of another target, never one of another kind of key. */
  lemma RefreshedFits(r: Row, p: Push, now: int, runs: map<Uuid, Run>, max: nat)
    requires RowFits(r, runs, max) && PushFits(p, runs) && IsPending(r, p.key)
    ensures RowFits(Refreshed(r, p, now), runs, max) && RowEvolves(r, Refreshed(r, p, now))
  {
  }

  lemma {:induction false} OnePendingUpdate(rows: seq<Row>, i: nat, r: Row)
    requires OnePending(rows) && i < |rows| && r.key == rows[i].key && (r.state == PENDING ==> rows[i].state == PENDING)
    ensures OnePending(rows[i := r])
  {
  }

  lemma {:induction false} OnePendingSnoc(rows: seq<Row>, r: Row)
    requires OnePending(rows) && forall i :: 0 <= i < |rows| ==> !IsPending(rows[i], r.key)
    ensures OnePending(rows + [r])
  {
  }

  lemma {:induction false} CoalescedFits(rows: seq<Row>, p: Push, now: int, runs: map<Uuid, Run>, max: nat)
    requires RowsFit(rows, runs, max) && PushFits(p, runs) && max >= 1
    ensures RowsFit(Coalesced(rows, p, now), runs, max) && RowsEvolve(rows, Coalesced(rows, p, now))
  {
    var i := FindPending(rows, p.key);
    if i < |rows| {
      RefreshedFits(rows[i], p, now, runs, max);
      OnePendingUpdate(rows, i, Refreshed(rows[i], p, now));
    } else {
      OnePendingSnoc(rows, NewRow(p, now));
    }
  }

  lemma {:induction false} CoalescedIsNewer(rows: seq<Row>, p: Push, now: int, runs: map<Uuid, Run>, attempts: seq<Attempt>)
    requires PushFits(p, runs) && PendingIsNewer(rows, attempts)
    requires forall a :: 0 <= a < |attempts| ==> AttemptFits(attempts[a], runs)
    ensures PendingIsNewer(Coalesced(rows, p, now), attempts)
  {
  }

  lemma {:induction false} CoalescedCounts(rows: seq<Row>, p: Push, now: int, attempts: seq<Attempt>)
    requires AttemptsCounted(rows, attempts)
    ensures AttemptsCounted(Coalesced(rows, p, now), attempts)
  {
    if FindPending(rows, p.key) == |rows| {
      NoAttemptsOn(attempts, |rows|);
    }
  }

  lemma {:induction false} NoAttemptsOn(attempts: seq<Attempt>, row: nat)
    requires forall a :: 0 <= a < |attempts| ==> attempts[a].row < row
    ensures AttemptsOn(attempts, row) == 0
    decreases |attempts|
  {
    if attempts != [] {
      NoAttemptsOn(attempts[..|attempts| - 1], row);
    }
  }

  /** The part of the invariant that depends on the rows. */
  predicate RowsKept(rows: seq<Row>, runs: map<Uuid, Run>, max: nat, attempts: seq<Attempt>) {
    && RowsFit(rows, runs, max) && PendingIsNewer(rows, attempts) && AttemptsCounted(rows, attempts)
    && forall a :: 0 <= a < |attempts| ==> AttemptFits(attempts[a], runs)
  }

  lemma {:induction false} CoalescedKeeps(rows: seq<Row>, p: Push, now: int, runs: map<Uuid, Run>, max: nat, attempts: seq<Attempt>)
    requires RowsKept(rows, runs, max, attempts) && PushFits(p, runs) && max >= 1
    ensures RowsKept(Coalesced(rows, p, now), runs, max, attempts) && RowsEvolve(rows, Coalesced(rows, p, now))
  {
    CoalescedFits(rows, p, now, runs, max);
    CoalescedIsNewer(rows, p, now, runs, attempts);
    CoalescedCounts(rows, p, now, attempts);
  }

  lemma {:induction false} CoalescedAllKeeps(rows: seq<Row>, pushes: seq<Push>, now: int, runs: map<Uuid, Run>, max: nat, attempts: seq<Attempt>)
    requires RowsKept(rows, runs, max, attempts) && max >= 1
    requires AllFit(pushes, runs)
    ensures RowsKept(CoalescedAll(rows, pushes, now), runs, max, attempts)
    ensures RowsEvolve(rows, CoalescedAll(rows, pushes, now))
    decreases |pushes|
  {
    if pushes != [] {
      var n := |pushes| - 1;
      CoalescedAllKeeps(rows, pushes[..n], now, runs, max, attempts);
      var before := CoalescedAll(rows, pushes[..n], now);
      CoalescedKeeps(before, pushes[n], now, runs, max, attempts);
      EvolveOn(rows, before, Coalesced(before, pushes[n], now));
    }
  }

  // Marking rows keeps it.

  /** A row that stays as it is, or leaves the pending state, or shows the run as it is now. */
  predicate Marked(a: Row, b: Row, runs: map<Uuid, Run>) {
    && RowEvolves(a, b) && b.attempts == a.attempts && b.kind == a.kind
    && (b.state == PENDING ==> a.state == PENDING)
    && (b.payload == a.payload || (RunOf(a.key).Some? && KnownRuns(runs, a.key) && b.payload.sequence == Shown(runs[RunOf(a.key).value])))
    && (b.state == PENDING && b.kind == LIVE_START ==>
          RunOf(a.key).Some? && KnownRuns(runs, a.key) && !IsTerminal(runs[RunOf(a.key).value].status))
  }

  predicate AllMarked(a: seq<Row>, b: seq<Row>, runs: map<Uuid, Run>) {
    |b| == |a| && forall i :: 0 <= i < |a| ==> Marked(a[i], b[i], runs)
  }

  /** Later runs: none is lost, and each shows at least what it showed. */
  predicate RunsAdvance(before: map<Uuid, Run>, runs: map<Uuid, Run>) {
    forall r :: r in before ==> r in runs && Shown(before[r]) <= Shown(runs[r])
  }

  lemma {:induction false} MarkedRowFits(a: Row, b: Row, before: map<Uuid, Run>, runs: map<Uuid, Run>, max: nat)
    requires RowFits(a, before, max) && RunsAdvance(before, runs) && Marked(a, b, runs)
    ensures RowFits(b, runs, max)
  {
  }

  lemma {:induction false} MarkedIsNewer(a: seq<Row>, b: seq<Row>, runs: map<Uuid, Run>, attempts: seq<Attempt>)
    requires PendingIsNewer(a, attempts) && AllMarked(a, b, runs)
    requires forall k :: 0 <= k < |attempts| ==> AttemptFits(attempts[k], runs)
    ensures PendingIsNewer(b, attempts)
  {
    forall i, k | 0 <= i < |b| && 0 <= k < |attempts| && ShowsRun(attempts[k]) && IsPending(b[i], attempts[k].key)
      ensures attempts[k].sequence <= b[i].payload.sequence
    {
      assert IsPending(a[i], attempts[k].key);
    }
  }

  lemma {:induction false} MarkedOnePending(a: seq<Row>, b: seq<Row>, runs: map<Uuid, Run>)
    requires OnePending(a) && AllMarked(a, b, runs)
    ensures OnePending(b)
  {
    forall j, k | 0 <= j < k < |b| && b[j].state == PENDING && b[k].state == PENDING ensures b[j].key != b[k].key {
      assert a[j].state == PENDING && a[k].state == PENDING;
    }
  }

  lemma {:induction false} MarkedCounts(a: seq<Row>, b: seq<Row>, runs: map<Uuid, Run>, attempts: seq<Attempt>)
    requires AttemptsCounted(a, attempts) && AllMarked(a, b, runs)
    ensures AttemptsCounted(b, attempts)
  {
  }

  lemma {:induction false} MarkedKeeps(a: seq<Row>, b: seq<Row>, before: map<Uuid, Run>, runs: map<Uuid, Run>, max: nat, attempts: seq<Attempt>)
    requires RowsKept(a, before, max, attempts) && RunsAdvance(before, runs) && AllMarked(a, b, runs)
    ensures RowsKept(b, runs, max, attempts) && RowsEvolve(a, b)
  {
    MarkedOnePending(a, b, runs);
    forall i | 0 <= i < |b| ensures RowFits(b[i], runs, max) {
      MarkedRowFits(a[i], b[i], before, runs, max);
    }
    MarkedIsNewer(a, b, runs, attempts);
    MarkedCounts(a, b, runs, attempts);
  }

  /** Rows that nothing touches, when runs advance and no run with a pending start ends. */
  lemma {:induction false} UntouchedMarked(rows: seq<Row>, runs: map<Uuid, Run>)
    requires forall i :: 0 <= i < |rows| && rows[i].state == PENDING && rows[i].kind == LIVE_START ==>
               RunOf(rows[i].key).Some? && KnownRuns(runs, rows[i].key) && !IsTerminal(runs[RunOf(rows[i].key).value].status)
    ensures AllMarked(rows, rows, runs)
  {
  }

  // Scheduling keeps it.

  predicate AllFit(pushes: seq<Push>, runs: map<Uuid, Run>) {
    forall i :: 0 <= i < |pushes| ==> PushFits(pushes[i], runs)
  }

  lemma {:induction false} StartPushesFit(s: Settings, w: World, run: Run, now: int, n: nat)
    requires n <= |w.devices| && run.id in w.runs && w.runs[run.id] == run && !IsTerminal(run.status)
    ensures AllFit(StartPushes(s, w, run, now, n), w.runs)
  {
    if n > 0 {
      StartPushesFit(s, w, run, now, n - 1);
      assert PushFits(StartPush(s, run, n - 1, now), w.runs);
    }
  }

  lemma LivePushFits(s: Settings, w: World, run: Run, b: nat, cause: Cause, previous: Option<Progress>, now: int)
    requires b < |w.bindings| && run.id in w.runs && w.runs[run.id] == run
    ensures PushFits(LivePush(s, w, run, b, cause, previous, now), w.runs)
  {
  }

  lemma {:induction false} LivePushesFit(s: Settings, w: World, run: Run, cause: Cause, previous: Option<Progress>, now: int, n: nat)
    requires n <= |w.bindings| && run.id in w.runs && w.runs[run.id] == run
    ensures AllFit(LivePushes(s, w, run, cause, previous, now, n), w.runs)
  {
    if n > 0 {
      LivePushesFit(s, w, run, cause, previous, now, n - 1);
      LivePushFits(s, w, run, n - 1, cause, previous, now);
      AllFitSnoc(LivePushes(s, w, run, cause, previous, now, n - 1), LivePush(s, w, run, n - 1, cause, previous, now), w.runs);
      assert LivePushes(s, w, run, cause, previous, now, n - 1) + [] == LivePushes(s, w, run, cause, previous, now, n - 1);
    }
  }

  lemma AllFitSnoc(pushes: seq<Push>, p: Push, runs: map<Uuid, Run>)
    requires AllFit(pushes, runs) && PushFits(p, runs)
    ensures AllFit(pushes + [p], runs)
  {
  }

  lemma {:induction false} NotePushesFit(w: World, note: Note, id: nat, now: int, n: nat)
    requires n <= |w.devices|
    ensures AllFit(NotePushes(w, note, id, now, n), w.runs)
  {
    if n > 0 {
      NotePushesFit(w, note, id, now, n - 1);
      assert PushFits(NotePush(note, id, n - 1, now), w.runs);
    }
  }

  /** A step of the rows that leaves runs and attempts alone. */
  predicate Kept(s: Settings, w: World, after: World) {
    && after.runs == w.runs && after.attempts == w.attempts
    && RowsKept(after.rows, after.runs, s.maxAttempts, after.attempts) && RowsEvolve(w.rows, after.rows)
  }

  predicate Ready(s: Settings, w: World) {
    RowsKept(w.rows, w.runs, s.maxAttempts, w.attempts) && s.maxAttempts >= 1
  }

  lemma {:induction false} NotifiedKeeps(s: Settings, w: World, note: Note, quota: bool, now: int)
    requires Ready(s, w) && Fallbacks(w.notes)
    ensures Kept(s, w, Notified(w, note, quota, now)) && Fallbacks(Notified(w, note, quota, now).notes)
  {
    NotePushesFit(w, note, |w.notes|, now, |w.devices|);
    if note.dedupe == NoDedupe || !HasNote(w.notes, note.workspaceId, note.dedupe) { NotesKeep(w.notes, note); }
    CoalescedAllKeeps(w.rows, NotePushes(w, note, |w.notes|, now, |w.devices|), now, w.runs, s.maxAttempts, w.attempts);
  }

  lemma {:induction false} NotesKeep(notes: seq<Note>, note: Note)
    requires Fallbacks(notes) && (note.dedupe == NoDedupe || !HasNote(notes, note.workspaceId, note.dedupe))
    ensures Fallbacks(notes + [note])
  {
  }

  lemma {:induction false} LiveScheduledKeeps(s: Settings, w: World, run: Run, cause: Cause, previous: Option<Progress>, now: int)
    requires Ready(s, w) && run.id in w.runs && w.runs[run.id] == run
    ensures Kept(s, w, LiveScheduled(s, w, run, cause, previous, now))
  {
    LivePushesFit(s, w, run, cause, previous, now, |w.bindings|);
    CoalescedAllKeeps(w.rows, LivePushes(s, w, run, cause, previous, now, |w.bindings|), now, w.runs, s.maxAttempts, w.attempts);
  }

  /** What a later event does to the rows, before it is shown. */
  lemma {:induction false} RestartedMarked(rows: seq<Row>, run: Run, now: int, before: map<Uuid, Run>, runs: map<Uuid, Run>, max: nat)
    requires RowsFit(rows, before, max) && run.id in runs && runs == before[run.id := run]
    ensures AllMarked(rows, Restarted(rows, run, now), runs)
  {
    forall i | 0 <= i < |rows| ensures Marked(rows[i], Restarted(rows, run, now)[i], runs) {
      assert RowFits(rows[i], before, max);
    }
  }

  /** The rows, once the run of an accepted event is what the event makes of it. */
  lemma {:induction false} StartsMarked(rows: seq<Row>, run: Run, before: map<Uuid, Run>, runs: map<Uuid, Run>, max: nat)
    requires RowsFit(rows, before, max) && runs == before[run.id := run] && !IsTerminal(run.status)
    ensures AllMarked(rows, rows, runs)
  {
    forall i | 0 <= i < |rows| && rows[i].state == PENDING && rows[i].kind == LIVE_START
      ensures RunOf(rows[i].key).Some? && KnownRuns(runs, rows[i].key) && !IsTerminal(runs[RunOf(rows[i].key).value].status)
    {
      assert RowFits(rows[i], before, max);
    }
    UntouchedMarked(rows, runs);
  }

  lemma {:induction false} FellBackKeeps(s: Settings, w: World, run: Run, quota: bool, now: int)
    requires Ready(s, w) && Fallbacks(w.notes)
    ensures Kept(s, w, FellBack(w, run, quota, now)) && Fallbacks(FellBack(w, run, quota, now).notes)
  {
    match FallbackLevel(w.rows, run)
    case Some(level) =>
      NotifiedKeeps(s, w, Note(run.workspaceId, Some(run.machineId), Some(run.id), level, Fallback(run.id)), quota, now);
    case None =>
  }

  /** `schedule_run_pushes` after the row of its run has changed from what it is in `before`. */
  lemma {:induction false} ScheduledKeeps(s: Settings, before: map<Uuid, Run>, w: World, run: Run, cause: Cause,
                                          previous: Option<Progress>, quota: bool, now: int)
    requires RowsKept(w.rows, before, s.maxAttempts, w.attempts) && s.maxAttempts >= 1 && Fallbacks(w.notes)
    requires w.runs == before[run.id := run] && RunsAdvance(before, w.runs)
    requires Starts(cause) ==> !IsTerminal(run.status)
    ensures Kept(s, w, Scheduled(s, w, run, cause, previous, quota, now))
    ensures Fallbacks(Scheduled(s, w, run, cause, previous, quota, now).notes)
  {
    if Starts(cause) {
      StartsMarked(w.rows, run, before, w.runs, s.maxAttempts);
      MarkedKeeps(w.rows, w.rows, before, w.runs, s.maxAttempts, w.attempts);
      StartPushesFit(s, w, run, now, |w.devices|);
      CoalescedAllKeeps(w.rows, StartPushes(s, w, run, now, |w.devices|), now, w.runs, s.maxAttempts, w.attempts);
    } else {
      RestartedMarked(w.rows, run, now, before, w.runs, s.maxAttempts);
      var rows := Restarted(w.rows, run, now);
      MarkedKeeps(w.rows, rows, before, w.runs, s.maxAttempts, w.attempts);
      ScheduledLater(s, w, w.(rows := rows), run, cause, previous, quota, now);
    }
  }

  lemma {:induction false} ScheduledLater(s: Settings, w: World, restarted: World, run: Run, cause: Cause,
                                          previous: Option<Progress>, quota: bool, now: int)
    requires Ready(s, restarted) && Fallbacks(w.notes) && run.id in w.runs && w.runs[run.id] == run && !Starts(cause)
    requires restarted == w.(rows := Restarted(w.rows, run, now)) && RowsEvolve(w.rows, restarted.rows)
    ensures Kept(s, w, Scheduled(s, w, run, cause, previous, quota, now))
    ensures Fallbacks(Scheduled(s, w, run, cause, previous, quota, now).notes)
  {
    FellBackKeeps(s, restarted, run, quota, now);
    var ended := if IsTerminal(run.status) then FellBack(restarted, run, quota, now) else restarted;
    LiveScheduledKeeps(s, ended, run, cause, previous, now);
    EvolveOn(w.rows, restarted.rows, ended.rows);
    EvolveOn(w.rows, ended.rows, LiveScheduled(s, ended, run, cause, previous, now).rows);
  }

  // Delivery keeps it.

  predicate AfterSend(r: Row, b: Row, max: nat) {
    && (b.key, b.target, b.runId, b.createdAt, b.kind, b.payload, b.priority)
       == (r.key, r.target, r.runId, r.createdAt, r.kind, r.payload, r.priority)
    && b.attempts == r.attempts + 1 && (b.state == PENDING ==> b.attempts < max)
  }

  lemma {:induction false} AttemptsSnoc(attempts: seq<Attempt>, a: Attempt, row: nat)
    ensures AttemptsOn(attempts + [a], row) == AttemptsOn(attempts, row) + if a.row == row then 1 else 0
  {
    assert (attempts + [a])[..|attempts|] == attempts;
  }

  /** A send: one row moves on, and its attempt is recorded. */
  lemma {:induction false} SentCounts(rows: seq<Row>, i: nat, b: Row, attempts: seq<Attempt>, a: Attempt, max: nat)
    requires AttemptsCounted(rows, attempts) && i < |rows| && AfterSend(rows[i], b, max) && a.row == i && a.key == b.key
    ensures AttemptsCounted(rows[i := b], attempts + [a])
  {
    forall k | 0 <= k < |rows| ensures AttemptsOn(attempts + [a], k) == rows[i := b][k].attempts {
      AttemptsSnoc(attempts, a, k);
    }
  }

  lemma {:induction false} SentIsNewer(rows: seq<Row>, i: nat, b: Row, attempts: seq<Attempt>, a: Attempt, max: nat)
    requires PendingIsNewer(rows, attempts) && OnePending(rows) && SendsAscend(attempts)
    requires i < |rows| && rows[i].state == PENDING && AfterSend(rows[i], b, max)
    requires a.key == b.key && a.sequence == b.payload.sequence
    ensures PendingIsNewer(rows[i := b], attempts + [a]) && SendsAscend(attempts + [a])
  {
    var more, next := attempts + [a], rows[i := b];
    forall j, k | 0 <= j < |next| && 0 <= k < |more| && ShowsRun(more[k]) && IsPending(next[j], more[k].key)
      ensures more[k].sequence <= next[j].payload.sequence
    {
      assert IsPending(rows[j], more[k].key);
      assert k < |attempts| ==> more[k] == attempts[k];
    }
    forall j, k | 0 <= j < k < |more| && ShowsRun(more[j]) && ShowsRun(more[k]) && more[j].key == more[k].key
      ensures more[j].sequence <= more[k].sequence
    {
      assert more[j] == attempts[j];
      assert k == |attempts| ==> IsPending(rows[i], attempts[j].key);
    }
  }
}
