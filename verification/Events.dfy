/**
 Run events and the two projections of them: the server's Run row
 (server/app/services.py, server/app/models.py) and the local runs table
 (cli/src/runbuoy/persistence/store.py).

 UUIDs are numbers (their text sorts the same way), timestamps are integers, and an
 event payload is a record of the keys that either projection looks at.
 */
module Events {
  import opened Wrappers

  type Uuid = nat

  datatype Status = CREATED | STARTING | RUNNING | SUCCEEDED | FAILED | CANCELLED | LOST

  datatype EventType =
    | RunCreated | RunStarting | RunStarted
    | RunProgress | RunPhaseChanged | RunMessage | RunAttentionRequired | RunHeartbeat
    | RunSucceeded | RunFailed | RunCancelled | RunLost

  datatype Attention = NONE | INFORMATION | WARNING | ACTION_REQUIRED

  datatype LivePolicy = Automatic | Immediate | Disabled

  datatype Progress = Progress(fraction: Option<real>, detail: string)

  /** A key of a JSON object: missing, or there with a value that may be null. */
  datatype Field<+T> = Absent | Present(value: T)

  datatype Payload = Payload(
    progress: Field<Option<Progress>>,
    phase: Field<Option<string>>,
    message: Field<Option<string>>,
    attention: Field<Option<Attention>>,
    exitCode: Field<Option<int>>,
    reason: Field<Option<string>>,
    logTail: Field<Option<seq<string>>>)

  datatype Event = Event(id: Uuid, runId: Uuid, machineId: string, seqNo: nat, kind: EventType, at: int, payload: Payload)

  predicate IsTerminal(s: Status) {
    s in {SUCCEEDED, FAILED, CANCELLED, LOST}
  }

  function EventStatus(kind: EventType): Option<Status> {
    match kind
    case RunCreated => Some(CREATED)
    case RunStarting => Some(STARTING)
    case RunStarted => Some(RUNNING)
    case RunSucceeded => Some(SUCCEEDED)
    case RunFailed => Some(FAILED)
    case RunCancelled => Some(CANCELLED)
    case RunLost => Some(LOST)
    case _ => None
  }

  predicate Ends(kind: EventType) {
    EventStatus(kind).Some? && IsTerminal(EventStatus(kind).value)
  }

  /** The table ALLOWED_TRANSITIONS. */
  predicate Allowed(from: Status, to: Status) {
    match from
    case CREATED => true
    case STARTING => to != CREATED
    case RUNNING => to != CREATED && to != STARTING
    case _ => false
  }

  function Merged<T>(field: Field<T>, current: T): T {
    if field.Present? then field.value else current
  }

  function Max(a: int, b: int): int {
    if a >= b then a else b
  }

  // The server's projection.

  datatype Run = Run(
    id: Uuid, workspaceId: string, machineId: string, title: string, source: string,
    status: Status, health: string, attention: Attention,
    progress: Option<Progress>, phase: Option<string>, message: Option<string>, logTail: Option<seq<string>>,
    createdAt: int, startedAt: Option<int>, updatedAt: int, endedAt: Option<int>,
    exitCode: Option<int>, reason: Option<string>, policy: LivePolicy, lastSeq: nat)

  /** What an accepted event's type and time do to the Run row. */
  function ApplyType(run: Run, e: Event): Run {
    var next := EventStatus(e.kind);
    run.(
      updatedAt := if run.lastSeq == 0 then e.at else Max(run.updatedAt, e.at),
      lastSeq := e.seqNo,
      createdAt := if e.kind.RunCreated? then e.at else run.createdAt,
      status := if next.Some? then next.value else run.status,
      startedAt := if (e.kind.RunStarted? || e.kind.RunStarting?) && run.startedAt.None? then Some(e.at) else run.startedAt,
      endedAt := if Ends(e.kind) then Some(e.at) else run.endedAt)
  }

  /** What the keys of its payload do: what is shown while the run goes on, */
  function ApplyShown(run: Run, p: Payload): Run {
    run.(
      progress := Merged(p.progress, run.progress),
      phase := Merged(p.phase, run.phase),
      message := Merged(p.message, run.message),
      attention := match p.attention
                   case Present(Some(a)) => a
                   case _ => run.attention)
  }

  /** and what is known of its outcome. */
  function ApplyOutcome(run: Run, p: Payload): Run {
    run.(
      exitCode := Merged(p.exitCode, run.exitCode),
      reason := Merged(p.reason, run.reason),
      logTail := Merged(p.logTail, run.logTail))
  }

  /** How an accepted event changes the Run row. */
  function Apply(run: Run, e: Event): Run {
    ApplyOutcome(ApplyShown(ApplyType(run, e), e.payload), e.payload)
  }

  function Project(run: Run, es: seq<Event>): Run {
    if es == [] then run else Apply(Project(run, es[..|es| - 1]), es[|es| - 1])
  }

  // The local projection.

  datatype LocalRun = LocalRun(
    id: Uuid, machineId: string, title: string, source: string, policy: LivePolicy,
    status: Status, progress: Option<Progress>, phase: Option<string>, message: Option<string>,
    exitCode: Option<int>, startedAt: Option<int>, updatedAt: int, endedAt: Option<int>,
    remoteInitialized: bool)

  /** How appending an event changes the local row. */
  function LocalApply(run: LocalRun, e: Event): LocalRun {
    var next := EventStatus(e.kind);
    run.(
      updatedAt := e.at,
      status := if next.Some? then next.value else run.status,
      startedAt := if e.kind.RunStarted? then Some(e.at) else run.startedAt,
      endedAt := if Ends(e.kind) then Some(e.at) else run.endedAt,
      exitCode := if Ends(e.kind) then Merged(e.payload.exitCode, None) else run.exitCode,
      progress := Merged(e.payload.progress, run.progress),
      phase := Merged(e.payload.phase, run.phase),
      message := Merged(e.payload.message, run.message))
  }

  function LocalProject(run: LocalRun, es: seq<Event>): LocalRun {
    if es == [] then run else LocalApply(LocalProject(run, es[..|es| - 1]), es[|es| - 1])
  }

  // Logs.

  function Rank(s: Status): nat {
    match s
    case CREATED => 0
    case STARTING => 1
    case RUNNING => 2
    case _ => 3
  }

  /** `b` may come after `a` in a log: `a` ends nothing and statuses do not go back. */
  predicate Follows(a: EventType, b: EventType) {
    && !Ends(a)
    && (EventStatus(a).Some? && EventStatus(b).Some? ==> Rank(EventStatus(a).value) <= Rank(EventStatus(b).value))
  }

  predicate StatusesAdvance(kinds: seq<EventType>) {
    forall j, k :: 0 <= j < k < |kinds| ==> Follows(kinds[j], kinds[k])
  }

  function Kinds(es: seq<Event>): seq<EventType> {
    seq(|es|, i requires 0 <= i < |es| => es[i].kind)
  }

  /** The shape of the logs that the CLI and the Worker write. */
  predicate WorkerShaped(es: seq<Event>) {
    && StatusesAdvance(Kinds(es))
    && forall i :: 0 <= i < |es| ==> (es[i].payload.exitCode.Present? <==> Ends(es[i].kind))
  }

  predicate SeqsIncrease(es: seq<Event>) {
    forall j, k :: 0 <= j < k < |es| ==> es[j].seqNo < es[k].seqNo
  }

  lemma ProjectSnoc(run: Run, es: seq<Event>, e: Event)
    ensures Project(run, es + [e]) == Apply(Project(run, es), e)
  {
    assert (es + [e])[..|es|] == es;
  }

  lemma LocalProjectSnoc(run: LocalRun, es: seq<Event>, e: Event)
    ensures LocalProject(run, es + [e]) == LocalApply(LocalProject(run, es), e)
  {
    assert (es + [e])[..|es|] == es;
  }

  /** What both sides know about a run, apart from `startedAt` and `updatedAt`. */
  predicate Agree(run: Run, local: LocalRun) {
    && run.status == local.status
    && run.progress == local.progress
    && run.phase == local.phase
    && run.message == local.message
    && run.exitCode == local.exitCode
    && run.endedAt == local.endedAt
  }

  /** Projected from the same log, the two sides agree. */
  lemma {:induction false} ProjectionsAgree(run: Run, local: LocalRun, es: seq<Event>)
    requires Agree(run, local) && WorkerShaped(es)
    ensures Agree(Project(run, es), LocalProject(local, es))
    decreases |es|
  {
    if es != [] {
      var n := |es| - 1;
      assert Kinds(es[..n]) == Kinds(es)[..n];
      ProjectionsAgree(run, local, es[..n]);
    }
  }

  /**
   An event that carries an exit code without ending the run, or ends it without one,
   is where the two sides can differ: the exact condition for a single event.
   */
  lemma AgreementStep(run: Run, local: LocalRun, e: Event)
    requires Agree(run, local)
    ensures Agree(Apply(run, e), LocalApply(local, e)) <==>
            if Ends(e.kind) then e.payload.exitCode.Present? || run.exitCode == None
            else e.payload.exitCode.Absent? || e.payload.exitCode.value == run.exitCode
  {
  }

  /** The server keeps the latest time of all accepted events, the local row that of the last one. */
  lemma {:induction false} UpdatedAtIsLatest(run: Run, es: seq<Event>)
    requires run.lastSeq == 0 && es != [] && forall i :: 0 <= i < |es| ==> es[i].seqNo > 0
    ensures var latest := Project(run, es).updatedAt;
            && (exists i :: 0 <= i < |es| && es[i].at == latest)
            && (forall i :: 0 <= i < |es| ==> es[i].at <= latest)
    ensures Project(run, es).lastSeq == es[|es| - 1].seqNo
    decreases |es|
  {
    var n := |es| - 1;
    if n > 0 {
      UpdatedAtIsLatest(run, es[..n]);
      var i :| 0 <= i < n && es[..n][i].at == Project(run, es[..n]).updatedAt;
      assert es[i] == es[..n][i];
      forall j | 0 <= j < n ensures es[j].at <= Project(run, es[..n]).updatedAt {
        assert es[j] == es[..n][j];
      }
    }
    assert es[n].at <= Project(run, es).updatedAt;
  }
}
