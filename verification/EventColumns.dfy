/**
 What the columns of a Run row say about the events that the server has accepted for it,
 column by column (server/app/services.py: ingest_events; server/app/api.py: upsert_run).
 */
module EventColumns {
  import opened Wrappers
  import opened Events
  import opened Ingest
  import opened Queue
  import opened Sequences
  import opened Pipeline
  import opened PipelineInvariant
  import opened PipelineTheorems

  // What an event says.

  predicate Starts(e: Event) {
    e.kind == RunStarting || e.kind == RunStarted
  }

  function StatusIn(e: Event): Field<Status> {
    match e.kind
    case RunCreated => Present(CREATED)
    case RunStarting => Present(STARTING)
    case RunStarted => Present(RUNNING)
    case RunSucceeded => Present(SUCCEEDED)
    case RunFailed => Present(FAILED)
    case RunCancelled => Present(CANCELLED)
    case RunLost => Present(LOST)
    case _ => Absent
  }

  function EndIn(e: Event): Field<Option<int>> {
    if e.kind in {RunSucceeded, RunFailed, RunCancelled, RunLost} then Present(Some(e.at)) else Absent
  }

  function CreationIn(e: Event): Field<int> {
    if e.kind == RunCreated then Present(e.at) else Absent
  }

  /** The attention status is never set to nothing. */
  function AttentionIn(e: Event): Field<Attention> {
    match e.payload.attention
    case Present(Some(a)) => Present(a)
    case _ => Absent
  }

  function ProgressIn(e: Event): Field<Option<Progress>> { e.payload.progress }

  function PhaseIn(e: Event): Field<Option<string>> { e.payload.phase }

  function MessageIn(e: Event): Field<Option<string>> { e.payload.message }

  function ExitCodeIn(e: Event): Field<Option<int>> { e.payload.exitCode }

  function ReasonIn(e: Event): Field<Option<string>> { e.payload.reason }

  function LogTailIn(e: Event): Field<Option<seq<string>>> { e.payload.logTail }

  // What the columns say.

  /** The value in the last event that has one, or what was there at first if none has. */
  ghost predicate LastValue<T(!new)>(es: seq<Event>, key: Event -> Field<T>, first: T, value: T) {
    if exists i :: 0 <= i < |es| && key(es[i]).Present?
    then exists i :: 0 <= i < |es| && key(es[i]) == Present(value) && forall j :: i < j < |es| ==> key(es[j]).Absent?
    else value == first
  }

  /** The time of the first event that starts the run. */
  predicate StartTells(es: seq<Event>, startedAt: Option<int>) {
    if exists i :: 0 <= i < |es| && Starts(es[i])
    then exists i :: 0 <= i < |es| && Starts(es[i]) && startedAt == Some(es[i].at) && forall j :: 0 <= j < i ==> !Starts(es[j])
    else startedAt == None
  }

  /** The latest time of all events, and the seq of the last. */
  predicate UpdateTells(es: seq<Event>, registered: int, updatedAt: int, lastSeq: nat) {
    if es == [] then updatedAt == registered && lastSeq == 0
    else
      && (exists i :: 0 <= i < |es| && es[i].at == updatedAt) && (forall i :: 0 <= i < |es| ==> es[i].at <= updatedAt)
      && lastSeq == es[|es| - 1].seqNo
  }

  ghost predicate TypesTell(es: seq<Event>, registered: int, row: Run) {
    && LastValue(es, StatusIn, CREATED, row.status)
    && LastValue(es, EndIn, None, row.endedAt)
    && LastValue(es, CreationIn, registered, row.createdAt)
    && StartTells(es, row.startedAt)
    && UpdateTells(es, registered, row.updatedAt, row.lastSeq)
  }

  ghost predicate PayloadsTell(es: seq<Event>, row: Run) {
    && LastValue(es, ProgressIn, None, row.progress)
    && LastValue(es, PhaseIn, None, row.phase)
    && LastValue(es, MessageIn, None, row.message)
    && LastValue(es, AttentionIn, NONE, row.attention)
    && LastValue(es, ExitCodeIn, None, row.exitCode)
    && LastValue(es, ReasonIn, None, row.reason)
    && LastValue(es, LogTailIn, None, row.logTail)
  }

  /** What the registration has said. */
  predicate RegistrationTells(local: LocalRun, workspaceId: string, row: Run) {
    && (row.id, row.workspaceId, row.machineId) == (local.id, workspaceId, local.machineId)
    && (row.title, row.source, row.health, row.policy) == (local.title, local.source, "HEALTHY", local.policy)
  }

  ghost predicate RowTells(local: LocalRun, workspaceId: string, es: seq<Event>, registered: int, row: Run) {
    RegistrationTells(local, workspaceId, row) && TypesTell(es, registered, row) && PayloadsTell(es, row)
  }

  // Proofs.

  lemma {:induction false} LastValueSnoc<T(!new)>(es: seq<Event>, e: Event, key: Event -> Field<T>, first: T, before: T, value: T)
    requires LastValue(es, key, first, before) && value == if key(e).Present? then key(e).value else before
    ensures LastValue(es + [e], key, first, value)
  {
    var all := es + [e];
    if key(e).Present? {
      assert key(all[|es|]) == Present(value);
    } else if i :| 0 <= i < |all| && key(all[i]).Present? {
      assert key(es[i]).Present?;
      var k :| 0 <= k < |es| && key(es[k]) == Present(value) && forall j :: k < j < |es| ==> key(es[j]).Absent?;
      assert key(all[k]) == Present(value) && forall j :: k < j < |es| ==> all[j] == es[j];
    } else {
      assert forall i :: 0 <= i < |es| ==> all[i] == es[i];
    }
  }

  lemma {:induction false} StartSnoc(es: seq<Event>, e: Event, before: Option<int>, startedAt: Option<int>)
    requires StartTells(es, before) && startedAt == if before == None && Starts(e) then Some(e.at) else before
    ensures StartTells(es + [e], startedAt)
  {
    var all := es + [e];
    assert all[|es|] == e && forall i :: 0 <= i < |es| ==> all[i] == es[i];
    if before != None {
      var k :| 0 <= k < |es| && Starts(es[k]) && before == Some(es[k].at) && forall j :: 0 <= j < k ==> !Starts(es[j]);
      assert Starts(all[k]);
    }
  }

  lemma {:induction false} UpdateSnoc(es: seq<Event>, e: Event, registered: int, before: int, seq0: nat, updatedAt: int)
    requires UpdateTells(es, registered, before, seq0) && forall i :: 0 <= i < |es| ==> es[i].seqNo > 0
    requires updatedAt == if seq0 == 0 then e.at else Max(before, e.at)
    ensures UpdateTells(es + [e], registered, updatedAt, e.seqNo)
  {
    var all := es + [e];
    assert all[|es|] == e && forall i :: 0 <= i < |es| ==> all[i] == es[i];
    if es != [] {
      var k :| 0 <= k < |es| && es[k].at == before;
      assert all[k].at == before;
    }
  }

  /** The columns that the type and the time of an event decide about. */
  lemma TypeColumns(row: Run, e: Event)
    ensures var next := Apply(row, e);
            && next.status == (if StatusIn(e).Present? then StatusIn(e).value else row.status)
            && next.endedAt == (if EndIn(e).Present? then EndIn(e).value else row.endedAt)
            && next.createdAt == (if CreationIn(e).Present? then CreationIn(e).value else row.createdAt)
            && next.startedAt == (if row.startedAt == None && Starts(e) then Some(e.at) else row.startedAt)
            && next.updatedAt == (if row.lastSeq == 0 then e.at else Max(row.updatedAt, e.at)) && next.lastSeq == e.seqNo
  {
  }

  lemma {:induction false} TypesSnoc(es: seq<Event>, e: Event, registered: int, row: Run)
    requires TypesTell(es, registered, row) && forall i :: 0 <= i < |es| ==> es[i].seqNo > 0
    ensures TypesTell(es + [e], registered, Apply(row, e))
  {
    var next := Apply(row, e);
    TypeColumns(row, e);
    LastValueSnoc(es, e, StatusIn, CREATED, row.status, next.status);
    LastValueSnoc(es, e, EndIn, None, row.endedAt, next.endedAt);
    LastValueSnoc(es, e, CreationIn, registered, row.createdAt, next.createdAt);
    StartSnoc(es, e, row.startedAt, next.startedAt);
    UpdateSnoc(es, e, registered, row.updatedAt, row.lastSeq, next.updatedAt);
  }

  lemma {:induction false} PayloadsSnoc(es: seq<Event>, e: Event, row: Run)
    requires PayloadsTell(es, row)
    ensures PayloadsTell(es + [e], Apply(row, e))
  {
    var next := Apply(row, e);
    LastValueSnoc(es, e, ProgressIn, None, row.progress, next.progress);
    LastValueSnoc(es, e, PhaseIn, None, row.phase, next.phase);
    LastValueSnoc(es, e, MessageIn, None, row.message, next.message);
    LastValueSnoc(es, e, AttentionIn, NONE, row.attention, next.attention);
    LastValueSnoc(es, e, ExitCodeIn, None, row.exitCode, next.exitCode);
    LastValueSnoc(es, e, ReasonIn, None, row.reason, next.reason);
    LastValueSnoc(es, e, LogTailIn, None, row.logTail, next.logTail);
  }

  lemma {:induction false} RowSnoc(local: LocalRun, workspaceId: string, es: seq<Event>, e: Event, registered: int, row: Run)
    requires RowTells(local, workspaceId, es, registered, row) && forall i :: 0 <= i < |es| ==> es[i].seqNo > 0
    ensures RowTells(local, workspaceId, es + [e], registered, Apply(row, e))
  {
    TypesSnoc(es, e, registered, row);
    PayloadsSnoc(es, e, row);
  }

  lemma {:induction false} NothingTells(local: LocalRun, workspaceId: string, registered: int)
    ensures RowTells(local, workspaceId, [], registered, NewRun(local, workspaceId, registered))
  {
  }

  /** The columns of a row that was registered at some time and has accepted some events. */
  lemma {:induction false} ProjectTells(local: LocalRun, workspaceId: string, es: seq<Event>, registered: int, row: Run)
    requires row == Project(NewRun(local, workspaceId, registered), es) && forall i :: 0 <= i < |es| ==> es[i].seqNo > 0
    ensures RowTells(local, workspaceId, es, registered, row)
    decreases |es|
  {
    if es == [] {
      NothingTells(local, workspaceId, registered);
    } else {
      var init, e := es[..|es| - 1], es[|es| - 1];
      var before := Project(NewRun(local, workspaceId, registered), init);
      InitAndLast(es);
      ProjectTells(local, workspaceId, init, registered, before);
      RowSnoc(local, workspaceId, init, e, registered, before);
    }
  }

  /**
   In every history each column of the server's row of a run is what its accepted events
   and its registration say: the status, the attention status and the keys of payloads by
   the last event that sets them, the start by the first event that starts the run.
   */
  lemma {:induction false} ServerRowTells(c: Config, steps: seq<Step>, runId: Uuid)
    requires Possible(c, START, steps) && runId in After(c, START, steps).server.runs
    ensures var s := After(c, START, steps);
            && runId in s.store.runs
            && exists registered :: RowTells(s.store.runs[runId], c.workspaceId, AcceptedOf(s.server, runId), registered, s.server.runs[runId])
  {
    var s := After(c, START, steps);
    ExactlyOnce(c, steps, runId);
    var local, accepted := s.store.runs[runId], AcceptedOf(s.server, runId);
    var at :| ProjectedSince(s.server.runs[runId], local, c.workspaceId, accepted, at);
    ProjectTells(local, c.workspaceId, accepted, at, s.server.runs[runId]);
    assert RowTells(local, c.workspaceId, accepted, at, s.server.runs[runId]);
  }

  // The local row.

  function LocalStartIn(e: Event): Field<Option<int>> {
    if e.kind == RunStarted then Present(Some(e.at)) else Absent
  }

  /** An end always sets the exit code, if only to nothing. */
  function LocalExitIn(e: Event): Field<Option<int>> {
    if e.kind !in {RunSucceeded, RunFailed, RunCancelled, RunLost} then Absent
    else if e.payload.exitCode.Present? then e.payload.exitCode
    else Present(None)
  }

  function TimeIn(e: Event): Field<int> { Present(e.at) }

  ghost predicate LocalTypesTell(es: seq<Event>, row: LocalRun) {
    && LastValue(es, StatusIn, CREATED, row.status)
    && LastValue(es, LocalStartIn, None, row.startedAt)
    && LastValue(es, EndIn, None, row.endedAt)
    && LastValue(es, LocalExitIn, None, row.exitCode)
    && LastValue(es, TimeIn, 0, row.updatedAt)
  }

  ghost predicate LocalTells(es: seq<Event>, row: LocalRun) {
    && LocalTypesTell(es, row)
    && LastValue(es, ProgressIn, None, row.progress)
    && LastValue(es, PhaseIn, None, row.phase)
    && LastValue(es, MessageIn, None, row.message)
  }

  lemma LocalColumns(row: LocalRun, e: Event)
    ensures var next := LocalApply(row, e);
            && next.status == (if StatusIn(e).Present? then StatusIn(e).value else row.status)
            && next.startedAt == (if LocalStartIn(e).Present? then LocalStartIn(e).value else row.startedAt)
            && next.endedAt == (if EndIn(e).Present? then EndIn(e).value else row.endedAt)
            && next.exitCode == (if LocalExitIn(e).Present? then LocalExitIn(e).value else row.exitCode)
            && next.updatedAt == e.at
  {
  }

  lemma {:induction false} LocalTypesSnoc(es: seq<Event>, e: Event, row: LocalRun)
    requires LocalTypesTell(es, row)
    ensures LocalTypesTell(es + [e], LocalApply(row, e))
  {
    var next := LocalApply(row, e);
    LocalColumns(row, e);
    LastValueSnoc(es, e, StatusIn, CREATED, row.status, next.status);
    LastValueSnoc(es, e, LocalStartIn, None, row.startedAt, next.startedAt);
    LastValueSnoc(es, e, EndIn, None, row.endedAt, next.endedAt);
    LastValueSnoc(es, e, LocalExitIn, None, row.exitCode, next.exitCode);
    LastValueSnoc(es, e, TimeIn, 0, row.updatedAt, next.updatedAt);
  }

  lemma {:induction false} LocalSnoc(es: seq<Event>, e: Event, row: LocalRun)
    requires LocalTells(es, row)
    ensures LocalTells(es + [e], LocalApply(row, e))
  {
    var next := LocalApply(row, e);
    LocalTypesSnoc(es, e, row);
    LastValueSnoc(es, e, ProgressIn, None, row.progress, next.progress);
    LastValueSnoc(es, e, PhaseIn, None, row.phase, next.phase);
    LastValueSnoc(es, e, MessageIn, None, row.message, next.message);
  }

  lemma {:induction false} LocalProjectTells(run: LocalRun, es: seq<Event>, row: LocalRun)
    requires row == LocalProject(Blank(run), es)
    ensures LocalTells(es, row)
    decreases |es|
  {
    if es != [] {
      var init, e := es[..|es| - 1], es[|es| - 1];
      var before := LocalProject(Blank(run), init);
      InitAndLast(es);
      LocalProjectTells(run, init, before);
      LocalSnoc(init, e, before);
    }
  }

  /** The same of the row on the machine and the whole local log; its start is that of the last run.started. */
  lemma {:induction false} LocalRowTells(c: Config, steps: seq<Step>, runId: Uuid)
    requires Possible(c, START, steps) && runId in After(c, START, steps).store.runs
    ensures var store := After(c, START, steps).store; Log(store, runId) != [] && LocalTells(Log(store, runId), store.runs[runId])
  {
    var s := After(c, START, steps);
    StartInvariant(c);
    HistoryKeeps(c, START, steps);
    assert RunInvariant(s.store, runId);
    LocalProjectTells(s.store.runs[runId], Log(s.store, runId), s.store.runs[runId]);
  }
}
