/**
 The push outbox: coalescing and scheduling (server/app/services.py:
 _coalesce_outbox, _priority, create_notification, schedule_binding_end,
 schedule_binding_update, schedule_run_pushes) and delivery (server/app/outbox.py).

 Devices, bindings, outbox rows and notifications are named by their position in the
 order of creation.  Times are microseconds.  Text, headers and tokens themselves are
 not modelled: what the push provider answers is an input.
 */
module Outbox {
  import opened Wrappers
  import opened Events
  import opened Arithmetic

  const SECOND := 1_000_000

  datatype PushKind = LIVE_START | LIVE_UPDATE | LIVE_END | NOTIFICATION

  datatype Target = DeviceTarget(device: nat) | ActivityTarget(binding: nat)

  /** The part of the payload that the delivery of live pushes depends on. */
  datatype LiveState = LiveState(sequence: nat, timestamp: int, staleDate: int)

  datatype Key = LiveKey(run: Uuid, device: nat) | StartKey(run: Uuid, device: nat) | NoteKey(note: nat, device: nat)

  datatype PushState = PENDING | SENT | FAILED_PUSH | EXPIRED | SUPPRESSED | CANCELLED_PUSH

  datatype Row = Row(kind: PushKind, target: Target, runId: Option<Uuid>, payload: LiveState, priority: int,
                     availableAt: int, attempts: nat, state: PushState, key: Key, createdAt: int, updatedAt: int)

  /** A row of push_attempts. */
  datatype Attempt = Attempt(row: nat, key: Key, kind: PushKind, sequence: nat, at: int, accepted: bool)

  datatype Device = Device(workspaceId: string, liveEnabled: bool, failureOn: bool, successOn: bool, frequent: bool,
                           startToken: bool, noteToken: bool, revoked: bool)

  /** The activity ids that the server gives to started activities, and those that devices report. */
  datatype Activity = PendingStart(row: nat) | Reported(name: string)

  datatype BindingState = ACTIVE | STALE | ENDED | DISMISSED | REPLACED | INVALIDATED | EXPIRED_BINDING

  datatype Binding = Binding(runId: Uuid, device: nat, activity: Activity, token: bool, generation: nat,
                             state: BindingState, lastSequence: nat, invalidated: bool)

  datatype Level = InfoLevel | SuccessLevel | ErrorLevel

  datatype Dedupe = NoDedupe | ByCaller(name: string) | Fallback(run: Uuid)

  datatype Note = Note(workspaceId: string, machineId: Option<string>, runId: Option<Uuid>, level: Level, dedupe: Dedupe)

  datatype World = World(runs: map<Uuid, Run>, subscriptions: set<(string, nat)>, devices: seq<Device>,
                         bindings: seq<Binding>, rows: seq<Row>, attempts: seq<Attempt>, notes: seq<Note>)

  datatype Settings = Settings(startDelay: nat, updateInterval: nat, maxPerDevice: int, maxAttempts: nat)

  /** What asks for a push: an accepted event, or a new name of the machine. */
  datatype Cause = ByEvent(kind: EventType) | MachineRenamed

  datatype Push = Push(kind: PushKind, target: Target, runId: Option<Uuid>, payload: LiveState, priority: int,
                       availableAt: int, key: Key)

  // Coalescing.

  function MinInt(a: int, b: int): int {
    if a <= b then a else b
  }

  predicate IsPending(r: Row, key: Key) {
    r.state == PENDING && r.key == key
  }

  /** The first pending row with a key, or the number of rows. */
  function FindPending(rows: seq<Row>, key: Key): (i: nat)
    ensures i <= |rows|
    ensures i < |rows| ==> IsPending(rows[i], key)
    ensures forall j :: 0 <= j < i ==> !IsPending(rows[j], key)
  {
    if rows == [] then 0
    else if IsPending(rows[0], key) then 0
    else
      var i := FindPending(rows[1..], key);
      assert forall j :: 0 < j < |rows| ==> rows[j] == rows[1..][j - 1];
      1 + i
  }

  function NewRow(p: Push, now: int): Row {
    Row(p.kind, p.target, p.runId, p.payload, p.priority, p.availableAt, 0, PENDING, p.key, now, now)
  }

  /** A pending row that takes over a later push: its target stays what it was. */
  function Refreshed(r: Row, p: Push, now: int): Row {
    r.(kind := p.kind, payload := p.payload, priority := Max(r.priority, p.priority),
       availableAt := MinInt(r.availableAt, p.availableAt), updatedAt := now)
  }

  function Coalesced(rows: seq<Row>, p: Push, now: int): seq<Row> {
    var i := FindPending(rows, p.key);
    if i < |rows| then rows[i := Refreshed(rows[i], p, now)] else rows + [NewRow(p, now)]
  }

  function CoalescedAll(rows: seq<Row>, pushes: seq<Push>, now: int): seq<Row> {
    if pushes == [] then rows
    else Coalesced(CoalescedAll(rows, pushes[..|pushes| - 1], now), pushes[|pushes| - 1], now)
  }

  // Scheduling.

  /** `int(datetime.timestamp())` */
  function Seconds(t: int): int {
    if t >= 0 then t / SECOND else -((-t) / SECOND)
  }

  function LivePayload(run: Run, now: int): LiveState {
    LiveState(if run.lastSeq >= 1 then run.lastSeq else 1, Seconds(now), Seconds(run.updatedAt + 60 * SECOND))
  }

  function Fraction(p: Option<Progress>): Option<real> {
    match p
    case Some(progress) => progress.fraction
    case None => None
  }

  function Distance(a: real, b: real): real {
    if a >= b then a - b else b - a
  }

  function Priority(run: Run, kind: PushKind, cause: Option<Cause>, previous: Option<Progress>): int {
    if kind == LIVE_START || kind == LIVE_END
       || run.attention == WARNING || run.attention == ACTION_REQUIRED
       || run.status == FAILED || run.status == LOST
       || cause == Some(ByEvent(RunPhaseChanged)) then 10
    else if cause == Some(ByEvent(RunProgress)) then
      match (Fraction(previous), Fraction(run.progress))
      case (None, _) => 10
      case (Some(before), Some(current)) => if Distance(current, before) >= 0.1 then 10 else 5
      case (Some(_), None) => 5
    else 5
  }

  predicate Subscribed(w: World, machineId: string, device: nat) {
    (machineId, device) in w.subscriptions
  }

  predicate WantsStart(w: World, run: Run, d: nat)
    requires d < |w.devices|
  {
    && Subscribed(w, run.machineId, d) && !w.devices[d].revoked
    && run.policy != Disabled && w.devices[d].liveEnabled && w.devices[d].startToken
  }

  function StartPush(s: Settings, run: Run, d: nat, now: int): Push {
    var delay := if run.policy == Immediate then 0 else s.startDelay * SECOND;
    Push(LIVE_START, DeviceTarget(d), Some(run.id), LivePayload(run, now), Priority(run, LIVE_START, None, None),
         (if run.startedAt.Some? then run.startedAt.value else now) + delay, StartKey(run.id, d))
  }

  /** The starts for the first `n` devices. */
  function StartPushes(s: Settings, w: World, run: Run, now: int, n: nat): seq<Push>
    requires n <= |w.devices|
  {
    if n == 0 then []
    else StartPushes(s, w, run, now, n - 1) + if WantsStart(w, run, n - 1) then [StartPush(s, run, n - 1, now)] else []
  }

  predicate IsPendingStart(r: Row, runId: Uuid) {
    r.runId == Some(runId) && r.kind == LIVE_START && r.state == PENDING
  }

  /** What a later event of the run makes of a row that waits to start an activity. */
  function RestartedRow(r: Row, run: Run, now: int): Row {
    if !IsPendingStart(r, run.id) then r
    else r.(payload := LivePayload(run, now), priority := Max(r.priority, Priority(run, LIVE_START, None, None)), updatedAt := now,
            state := if IsTerminal(run.status) then CANCELLED_PUSH else PENDING)
  }

  function Restarted(rows: seq<Row>, run: Run, now: int): seq<Row> {
    seq(|rows|, i requires 0 <= i < |rows| => RestartedRow(rows[i], run, now))
  }

  predicate StartSent(rows: seq<Row>, runId: Uuid) {
    exists i :: 0 <= i < |rows| && rows[i].runId == Some(runId) && rows[i].kind == LIVE_START && rows[i].state == SENT
  }

  /** A run that has ended gets a notification instead of the activity that was never started. */
  function FallbackLevel(rows: seq<Row>, run: Run): Option<Level> {
    if StartSent(rows, run.id) then None
    else if run.status == FAILED || run.status == LOST then Some(ErrorLevel)
    else if run.status == SUCCEEDED && run.startedAt.Some? && run.endedAt.Some?
            && run.endedAt.value - run.startedAt.value > 5 * SECOND then Some(SuccessLevel)
    else None
  }

  // Notifications.

  predicate WantsNote(w: World, note: Note, d: nat)
    requires d < |w.devices|
  {
    var device := w.devices[d];
    && device.workspaceId == note.workspaceId && !device.revoked && device.noteToken
    && (note.machineId.Some? ==> Subscribed(w, note.machineId.value, d))
    && (note.level == SuccessLevel ==> device.successOn)
    && (note.level == ErrorLevel ==> device.failureOn)
  }

  function NotePush(note: Note, id: nat, d: nat, now: int): Push {
    Push(NOTIFICATION, DeviceTarget(d), note.runId, LiveState(0, 0, 0), 10, now, NoteKey(id, d))
  }

  function NotePushes(w: World, note: Note, id: nat, now: int, n: nat): seq<Push>
    requires n <= |w.devices|
  {
    if n == 0 then []
    else NotePushes(w, note, id, now, n - 1) + if WantsNote(w, note, n - 1) then [NotePush(note, id, n - 1, now)] else []
  }

  predicate HasNote(notes: seq<Note>, workspaceId: string, dedupe: Dedupe) {
    exists i :: 0 <= i < |notes| && notes[i].workspaceId == workspaceId && notes[i].dedupe == dedupe
  }

  /** `create_notification`; `quota` says whether the workspace may still notify today. */
  function Notified(w: World, note: Note, quota: bool, now: int): World {
    if note.dedupe != NoDedupe && HasNote(w.notes, note.workspaceId, note.dedupe) then w
    else if !quota then w
    else w.(notes := w.notes + [note],
            rows := CoalescedAll(w.rows, NotePushes(w, note, |w.notes|, now, |w.devices|), now))
  }

  // Live updates.

  predicate Deliverable(b: Binding) {
    b.state == ACTIVE || b.state == STALE
  }

  predicate GetsLive(b: Binding, runId: Uuid) {
    b.runId == runId && Deliverable(b) && !b.invalidated && b.token
  }

  predicate IsSent(r: Row, key: Key) {
    r.state == SENT && r.key == key
  }

  /** The latest `updated_at` of the sent rows with a key. */
  function LatestSent(rows: seq<Row>, key: Key): Option<int> {
    if rows == [] then None
    else
      var r, rest := rows[|rows| - 1], LatestSent(rows[..|rows| - 1], key);
      if !IsSent(r, key) then rest
      else if rest.Some? && rest.value >= r.updatedAt then rest
      else Some(r.updatedAt)
  }

  function Interval(s: Settings, w: World, device: nat): nat {
    if device < |w.devices| && !w.devices[device].frequent && s.updateInterval < 15 then 15 else s.updateInterval
  }

  /** When a progress event may be shown: not too soon after the last send, and late if it changed little. */
  function ProgressAt(s: Settings, w: World, run: Run, device: nat, previous: Option<Progress>, now: int): int {
    var latest := LatestSent(w.rows, LiveKey(run.id, device));
    var interval := Interval(s, w, device) * SECOND;
    var little := match (Fraction(previous), Fraction(run.progress))
                  case (Some(before), Some(current)) => Distance(current, before) < 0.01
                  case _ => false;
    if little then now + interval
    else if latest.Some? then Max(now, latest.value + interval)
    else now
  }

  function LivePush(s: Settings, w: World, run: Run, b: nat, cause: Cause, previous: Option<Progress>, now: int): Push
    requires b < |w.bindings|
  {
    var kind := if IsTerminal(run.status) then LIVE_END else LIVE_UPDATE;
    var device := w.bindings[b].device;
    var at := if kind == LIVE_UPDATE && cause == ByEvent(RunProgress) then ProgressAt(s, w, run, device, previous, now) else now;
    Push(kind, ActivityTarget(b), Some(run.id), LivePayload(run, now), Priority(run, kind, Some(cause), previous), at,
         LiveKey(run.id, device))
  }

  function LivePushes(s: Settings, w: World, run: Run, cause: Cause, previous: Option<Progress>, now: int, n: nat): seq<Push>
    requires n <= |w.bindings|
  {
    if n == 0 then []
    else LivePushes(s, w, run, cause, previous, now, n - 1)
         + if GetsLive(w.bindings[n - 1], run.id) then [LivePush(s, w, run, n - 1, cause, previous, now)] else []
  }

  /** The last part of `schedule_run_pushes`. */
  function LiveScheduled(s: Settings, w: World, run: Run, cause: Cause, previous: Option<Progress>, now: int): World {
    w.(rows := CoalescedAll(w.rows, LivePushes(s, w, run, cause, previous, now, |w.bindings|), now))
  }

  /** The fallback notification of a run that has just ended. */
  function FellBack(w: World, run: Run, quota: bool, now: int): World {
    match FallbackLevel(w.rows, run)
    case Some(level) => Notified(w, Note(run.workspaceId, Some(run.machineId), Some(run.id), level, Fallback(run.id)), quota, now)
    case None => w
  }

  predicate Starts(cause: Cause) {
    cause == ByEvent(RunStarted) || cause == ByEvent(RunStarting)
  }

  /** `schedule_run_pushes` */
  function Scheduled(s: Settings, w: World, run: Run, cause: Cause, previous: Option<Progress>, quota: bool, now: int): World {
    if Starts(cause) then
      w.(rows := CoalescedAll(w.rows, StartPushes(s, w, run, now, |w.devices|), now))
    else
      var restarted := w.(rows := Restarted(w.rows, run, now));
      var ended := if IsTerminal(run.status) then FellBack(restarted, run, quota, now) else restarted;
      LiveScheduled(s, ended, run, cause, previous, now)
  }

  /** `schedule_binding_end` or `schedule_binding_update` */
  function BindingPush(run: Run, b: nat, device: nat, now: int): Push {
    var kind := if IsTerminal(run.status) then LIVE_END else LIVE_UPDATE;
    Push(kind, ActivityTarget(b), Some(run.id), LivePayload(run, now),
         if kind == LIVE_END then 10 else Priority(run, LIVE_UPDATE, None, None), now, LiveKey(run.id, device))
  }

  // Delivery.

  datatype Outcome = Accepted | InvalidToken | Retryable | Refused

  predicate IsLive(kind: PushKind) {
    kind != NOTIFICATION
  }

  /** `live_activity_expiration` */
  function Expiration(r: Row): int {
    match r.kind
    case LIVE_START => r.payload.timestamp + 300
    case LIVE_END => r.payload.timestamp + 4 * 60 * 60
    case _ => r.payload.staleDate
  }

  predicate Due(r: Row, now: int) {
    r.state == PENDING && r.availableAt <= now
  }

  /** The order in which due rows are taken. */
  predicate Before(a: Row, b: Row) {
    || a.priority > b.priority
    || (a.priority == b.priority && a.availableAt < b.availableAt)
    || (a.priority == b.priority && a.availableAt == b.availableAt && a.createdAt < b.createdAt)
  }

  predicate IsHead(rows: seq<Row>, i: nat, now: int) {
    && i < |rows| && Due(rows[i], now)
    && forall j :: 0 <= j < |rows| && Due(rows[j], now) ==> !Before(rows[j], rows[i])
  }

  /** Counts against the limit of activities on a device. */
  predicate Occupies(b: Binding, device: nat) {
    b.device == device && Deliverable(b) && !b.invalidated
  }

  function Occupied(bindings: seq<Binding>, device: nat): nat {
    if bindings == [] then 0
    else Occupied(bindings[..|bindings| - 1], device) + if Occupies(bindings[|bindings| - 1], device) then 1 else 0
  }

  predicate HasCapacity(s: Settings, w: World, r: Row) {
    r.kind == LIVE_START && r.target.DeviceTarget? ==> Occupied(w.bindings, r.target.device) < s.maxPerDevice
  }

  /** `_request_for` finds a token to send to. */
  predicate HasToken(w: World, r: Row) {
    match r.target
    case DeviceTarget(d) =>
      d < |w.devices| && !w.devices[d].revoked && (if r.kind == LIVE_START then w.devices[d].startToken else w.devices[d].noteToken)
    case ActivityTarget(b) => b < |w.bindings| && !w.bindings[b].invalidated && w.bindings[b].token
  }

  /** `min(300, 2 ** min(attempts, 8))` seconds */
  function RetryDelay(attempts: nat): nat {
    var delay := Pow2(if attempts <= 8 then attempts else 8);
    (if delay <= 300 then delay else 300) * SECOND
  }

  function Closed(w: World, i: nat, state: PushState, now: int): World
    requires i < |w.rows|
  {
    w.(rows := w.rows[i := w.rows[i].(state := state, updatedAt := now)])
  }

  function WithBindingState(w: World, b: nat, state: BindingState): World {
    if b < |w.bindings| then w.(bindings := w.bindings[b := w.bindings[b].(state := state)]) else w
  }

  function ExpiredRow(w: World, i: nat, now: int): World
    requires i < |w.rows|
  {
    var closed, r := Closed(w, i, EXPIRED, now), w.rows[i];
    if r.kind == LIVE_END && r.target.ActivityTarget? then WithBindingState(closed, r.target.binding, EXPIRED_BINDING) else closed
  }

  function AcceptedRow(w: World, i: nat, now: int): World
    requires i < |w.rows|
  {
    var closed, r := Closed(w, i, SENT, now), w.rows[i];
    if r.kind == LIVE_START && r.runId.Some? && r.target.DeviceTarget? then
      closed.(bindings := w.bindings + [Binding(r.runId.value, r.target.device, PendingStart(i), false, 0, ACTIVE, 0, false)])
    else if r.kind == LIVE_END && r.target.ActivityTarget? then WithBindingState(closed, r.target.binding, ENDED)
    else closed
  }

  function InvalidRow(w: World, i: nat, now: int): World
    requires i < |w.rows|
  {
    var closed, r := Closed(w, i, FAILED_PUSH, now), w.rows[i];
    match r.target
    case DeviceTarget(d) =>
      if d >= |w.devices| then closed
      else if r.kind == LIVE_START then closed.(devices := w.devices[d := w.devices[d].(startToken := false)])
      else closed.(devices := w.devices[d := w.devices[d].(noteToken := false)])
    case ActivityTarget(b) =>
      if b >= |w.bindings| then closed
      else closed.(bindings := w.bindings[b := w.bindings[b].(invalidated := true, state := INVALIDATED, token := false)])
  }

  function RetriedRow(w: World, i: nat, now: int): World
    requires i < |w.rows|
  {
    w.(rows := w.rows[i := w.rows[i].(availableAt := now + RetryDelay(w.rows[i].attempts), updatedAt := now)])
  }

  /** A request to the provider is recorded with the row it was made for. */
  function Attempted(w: World, i: nat, outcome: Outcome, now: int): World
    requires i < |w.rows|
  {
    var r := w.rows[i];
    w.(rows := w.rows[i := r.(attempts := r.attempts + 1)],
       attempts := w.attempts + [Attempt(i, r.key, r.kind, r.payload.sequence, now, outcome.Accepted?)])
  }

  function Answered(s: Settings, w: World, i: nat, outcome: Outcome, now: int): World
    requires i < |w.rows|
  {
    match outcome
    case Accepted => AcceptedRow(w, i, now)
    case InvalidToken => InvalidRow(w, i, now)
    case Retryable => if w.rows[i].attempts < s.maxAttempts then RetriedRow(w, i, now) else Closed(w, i, FAILED_PUSH, now)
    case Refused => Closed(w, i, FAILED_PUSH, now)
  }

  predicate IsExpired(r: Row, now: int) {
    IsLive(r.kind) && Expiration(r) <= Seconds(now)
  }

  /** The provider is asked to deliver row `i`. */
  predicate Sends(s: Settings, w: World, i: nat, now: int)
    requires i < |w.rows|
  {
    !IsExpired(w.rows[i], now) && HasCapacity(s, w, w.rows[i]) && HasToken(w, w.rows[i])
  }

  /** `process_one` for the row that it takes. */
  function Processed(s: Settings, w: World, i: nat, outcome: Outcome, now: int): World
    requires i < |w.rows|
  {
    if IsExpired(w.rows[i], now) then ExpiredRow(w, i, now)
    else if !HasCapacity(s, w, w.rows[i]) then Closed(w, i, SUPPRESSED, now)
    else if !HasToken(w, w.rows[i]) then Closed(w, i, CANCELLED_PUSH, now)
    else Answered(s, Attempted(w, i, outcome, now), i, outcome, now)
  }

  // Registration of activities.

  /** The placeholder that a newly reported activity takes over. */
  predicate IsPlaceholder(b: Binding, runId: Uuid, device: nat) {
    b.device == device && b.runId == runId && b.activity.PendingStart? && b.state == ACTIVE
  }

  predicate IsBindingOf(b: Binding, device: nat, activity: Activity) {
    b.device == device && b.activity == activity
  }

  function FindBinding(bindings: seq<Binding>, device: nat, activity: Activity): (i: nat)
    ensures i <= |bindings|
    ensures i < |bindings| ==> IsBindingOf(bindings[i], device, activity)
    ensures forall j :: 0 <= j < i ==> !IsBindingOf(bindings[j], device, activity)
  {
    if bindings == [] || IsBindingOf(bindings[0], device, activity) then 0
    else
      var i := FindBinding(bindings[1..], device, activity);
      assert forall j :: 0 < j < |bindings| ==> bindings[j] == bindings[1..][j - 1];
      1 + i
  }

  function FindPlaceholder(bindings: seq<Binding>, runId: Uuid, device: nat): (i: nat)
    ensures i <= |bindings|
    ensures i < |bindings| ==> IsPlaceholder(bindings[i], runId, device)
    ensures forall j :: 0 <= j < i ==> !IsPlaceholder(bindings[j], runId, device)
  {
    if bindings == [] || IsPlaceholder(bindings[0], runId, device) then 0
    else
      var i := FindPlaceholder(bindings[1..], runId, device);
      assert forall j :: 0 < j < |bindings| ==> bindings[j] == bindings[1..][j - 1];
      1 + i
  }

  /** The bindings with one for the activity, new if need be, and its position. */
  function WithBinding(bindings: seq<Binding>, runId: Uuid, device: nat, activity: Activity): (r: (seq<Binding>, nat))
    ensures r.1 < |r.0|
  {
    var i := FindBinding(bindings, device, activity);
    if i < |bindings| then (bindings, i)
    else
      var p := FindPlaceholder(bindings, runId, device);
      var kept := if p < |bindings| then bindings[p := bindings[p].(state := REPLACED)] else bindings;
      (kept + [Binding(runId, device, activity, false, 0, ACTIVE, 0, false)], |bindings|)
  }

  /** The body of `register_activity_update_token` for a known run. */
  function TokenRegistered(w: World, runId: Uuid, device: nat, activity: Activity, generation: nat, now: int): World
    requires runId in w.runs
  {
    var run := w.runs[runId];
    var (bindings, i) := WithBinding(w.bindings, runId, device, activity);
    var b := bindings[i];
    if generation < b.generation then w.(bindings := bindings)
    else
      var updated := w.(bindings := bindings[i := b.(token := true, generation := generation, invalidated := false, state := ACTIVE)]);
      if IsTerminal(run.status) || b.lastSequence < run.lastSeq
      then updated.(rows := Coalesced(w.rows, BindingPush(run, i, b.device, now), now))
      else updated
  }

  /** One activity of a device's report. */
  datatype Report = Report(activity: Activity, runId: Uuid, token: Option<nat>, state: BindingState, lastSequence: nat)

  function ReportedBinding(b: Binding, r: Report): Binding {
    b.(state := r.state, lastSequence := r.lastSequence,
       token := b.token || (r.token.Some? && r.token.value >= b.generation),
       generation := if r.token.Some? && r.token.value >= b.generation then r.token.value else b.generation)
  }

  /** The loop body of `sync_activities`. */
  function ActivityReported(w: World, device: nat, r: Report, now: int): World
    requires r.runId in w.runs
  {
    var run := w.runs[r.runId];
    var (bindings, i) := WithBinding(w.bindings, r.runId, device, r.activity);
    var b := ReportedBinding(bindings[i], r);
    var updated := w.(bindings := bindings[i := b]);
    if Deliverable(b) && b.token && (IsTerminal(run.status) || r.lastSequence < run.lastSeq)
    then updated.(rows := Coalesced(w.rows, BindingPush(run, i, b.device, now), now))
    else updated
  }

  /** The end of `sync_activities`: activities that the device does not report have ended. */
  function UnreportedBinding(b: Binding, device: nat, supplied: set<Activity>): Binding {
    if b.device == device && Deliverable(b) && !b.activity.PendingStart? && b.activity !in supplied then b.(state := ENDED) else b
  }

  function UnreportedEnded(bindings: seq<Binding>, device: nat, supplied: set<Activity>): seq<Binding> {
    seq(|bindings|, i requires 0 <= i < |bindings| => UnreportedBinding(bindings[i], device, supplied))
  }

  // Revocation and reset.

  function CancelledRow(r: Row, cancelled: bool, now: int): Row {
    if cancelled && r.state == PENDING then r.(state := CANCELLED_PUSH, updatedAt := now) else r
  }

  predicate OfMachine(w: World, runId: Option<Uuid>, machineId: string) {
    runId.Some? && runId.value in w.runs && w.runs[runId.value].machineId == machineId
  }

  /** The rows that `_cancel_pending_pushes` is about. */
  predicate AboutMachine(w: World, r: Row, machineId: string, devices: set<nat>) {
    || (OfMachine(w, r.runId, machineId)
        && match r.target
           case DeviceTarget(d) => d in devices
           case ActivityTarget(b) => b < |w.bindings| && w.bindings[b].device in devices && OfMachine(w, Some(w.bindings[b].runId), machineId))
    || (r.key.NoteKey? && r.key.note < |w.notes| && w.notes[r.key.note].machineId == Some(machineId) && r.key.device in devices)
  }

  function CancelledFor(w: World, machineId: string, devices: set<nat>, now: int): World {
    w.(rows := seq(|w.rows|, i requires 0 <= i < |w.rows| =>
         CancelledRow(w.rows[i], AboutMachine(w, w.rows[i], machineId, devices), now)))
  }

  function InvalidatedBinding(b: Binding, invalidated: bool): Binding {
    if invalidated then b.(state := INVALIDATED, invalidated := true, token := false) else b
  }

  function SubscribedDevices(w: World, machineId: string): set<nat> {
    set x | x in w.subscriptions && x.0 == machineId :: x.1
  }

  function StoppedReceiving(w: World, machineId: string, device: nat, now: int): World {
    CancelledFor(w, machineId, {device}, now).(subscriptions := w.subscriptions - {(machineId, device)})
  }

  function Revoked(w: World, machineId: string, now: int): World {
    CancelledFor(w, machineId, SubscribedDevices(w, machineId), now).(
      subscriptions := (set x | x in w.subscriptions && x.0 != machineId),
      bindings := seq(|w.bindings|, i requires 0 <= i < |w.bindings| =>
        InvalidatedBinding(w.bindings[i], OfMachine(w, Some(w.bindings[i].runId), machineId) && !w.bindings[i].invalidated)))
  }

  predicate AboutDevice(w: World, r: Row, device: nat) {
    match r.target
    case DeviceTarget(d) => d == device
    case ActivityTarget(b) => b < |w.bindings| && w.bindings[b].device == device
  }

  function DeviceReset(w: World, device: nat, now: int): World
    requires device < |w.devices|
  {
    w.(rows := seq(|w.rows|, i requires 0 <= i < |w.rows| =>
         CancelledRow(w.rows[i], AboutDevice(w, w.rows[i], device), now)),
       bindings := seq(|w.bindings|, i requires 0 <= i < |w.bindings| =>
         InvalidatedBinding(w.bindings[i], w.bindings[i].device == device)),
       subscriptions := (set x | x in w.subscriptions && x.1 != device),
       devices := w.devices[device := w.devices[device].(startToken := false, noteToken := false)])
  }
}
