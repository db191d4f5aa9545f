/** What holds in every history of a handoff. */
module HandoffSafety {
  import opened Wrappers
  import opened Events
  import opened Queue
  import opened Handoff
  import Adapters

  // The log.

  predicate Has(es: seq<Event>, kind: EventType) {
    exists i :: 0 <= i < |es| && es[i].kind == kind
  }

  predicate HasEnd(es: seq<Event>) {
    exists i :: 0 <= i < |es| && Ends(es[i].kind)
  }

  /** No event of the log claims a later status than the row has. */
  predicate NotBeyond(es: seq<Event>, status: Status) {
    forall i :: 0 <= i < |es| && EventStatus(es[i].kind).Some? ==> Rank(EventStatus(es[i].kind).value) <= Rank(status)
  }

  predicate LogHolds(l: Local) {
    && l.log != [] && WorkerShaped(l.log)
    && NotBeyond(l.log, l.run.status)
    && (IsTerminal(l.run.status) <==> HasEnd(l.log))
    && (l.run.startedAt.Some? <==> Has(l.log, RunStarted))
    && (l.run.status == LOST <==> Has(l.log, RunLost))
  }

  /** What may be appended to a log. */
  predicate Fits(l: Local, kind: EventType, payload: Payload) {
    && !IsTerminal(l.run.status)
    && (payload.exitCode.Present? <==> Ends(kind))
    && (EventStatus(kind).Some? ==> Rank(l.run.status) <= Rank(EventStatus(kind).value))
    && kind != RunCreated
  }

  lemma {:induction false} HasSnoc(es: seq<Event>, e: Event, kind: EventType)
    ensures Has(es + [e], kind) <==> Has(es, kind) || e.kind == kind
  {
    var all := es + [e];
    if Has(es, kind) {
      var i :| 0 <= i < |es| && es[i].kind == kind;
      assert all[i].kind == kind;
    }
    assert all[|es|] == e;
  }

  lemma {:induction false} HasEndSnoc(es: seq<Event>, e: Event)
    ensures HasEnd(es + [e]) <==> HasEnd(es) || Ends(e.kind)
  {
    var all := es + [e];
    if HasEnd(es) {
      var i :| 0 <= i < |es| && Ends(es[i].kind);
      assert Ends(all[i].kind);
    }
    assert all[|es|] == e;
  }

  lemma {:induction false} AdvanceSnoc(l: Local, e: Event)
    requires StatusesAdvance(Kinds(l.log)) && NotBeyond(l.log, l.run.status) && !HasEnd(l.log)
    requires EventStatus(e.kind).Some? ==> Rank(l.run.status) <= Rank(EventStatus(e.kind).value)
    ensures StatusesAdvance(Kinds(l.log + [e]))
  {
    var kinds := Kinds(l.log + [e]);
    assert kinds == Kinds(l.log) + [e.kind];
    forall j, k | 0 <= j < k < |kinds| ensures Follows(kinds[j], kinds[k]) {
      if k < |l.log| {
        assert Follows(Kinds(l.log)[j], Kinds(l.log)[k]);
      } else {
        assert kinds[j] == l.log[j].kind;
      }
    }
  }

  lemma {:induction false} ExtendedHolds(l: Local, kind: EventType, payload: Payload, at: int, id: Uuid)
    requires LogHolds(l) && Fits(l, kind, payload)
    ensures LogHolds(Extended(l, kind, payload, at, id))
  {
    var e := NewEvent(l, kind, payload, at, id);
    var next := Extended(l, kind, payload, at, id);
    HasSnoc(l.log, e, RunStarted);
    HasSnoc(l.log, e, RunLost);
    HasEndSnoc(l.log, e);
    AdvanceSnoc(l, e);
    assert NotBeyond(next.log, next.run.status);
  }

  lemma {:induction false} AppendedHolds(l: Local, kind: EventType, payload: Payload, stamp: Stamp)
    requires LogHolds(l) && (Appends(l, stamp) ==> Fits(l, kind, payload))
    ensures LogHolds(AppendedIf(l, kind, payload, stamp))
  {
    if Appends(l, stamp) { ExtendedHolds(l, kind, payload, stamp.at, stamp.id); }
  }

  // Where the processes are.

  predicate HasStarted(s: State) {
    s.local.run.startedAt.Some?
  }

  predicate BeforeStarting(w: Worker) {
    w.Unborn? || w.OpeningSocket? || w.EmittingStarting?
  }

  predicate BeforeStarted(w: Worker) {
    BeforeStarting(w) || w.Preparing? || w.Waiting? || w.Examining? || w.Acknowledging? || w.Spawning? || w.Recording? || w.Announcing?
  }

  predicate NeedsAck(w: Worker) {
    w.Acknowledging? || w.Spawning? || w.Recording? || w.Announcing? || w.Supervising? || w.Draining? || w.Ending? || w.Signalling?
  }

  predicate HasRunTarget(w: Worker) {
    w.Supervising? || w.Draining? || w.Ending?
  }

  predicate WorkerHolds(s: State) {
    && (BeforeStarting(s.worker) ==> s.local.run.status == CREATED || IsTerminal(s.local.run.status))
    && (BeforeStarted(s.worker) || s.worker.Signalling? || s.worker == Reporting(true) ==> !HasStarted(s))
    && (NeedsAck(s.worker) || HasStarted(s) ==> s.flags.ack)
    && (HasRunTarget(s.worker) ==> HasStarted(s))
    && (s.worker.Ending? ==> Ends(s.worker.kind) && s.worker.kind != RunLost)
    && (s.local.run.status == CREATED ==> !HasStarted(s))
    && ((s.worker.Recording? || s.worker.Announcing? || s.worker.Supervising? || s.worker.Draining? || s.worker.Ending?) ==> !s.target.NotSpawned?)
  }

  /** The Worker could not record that the run started: it has signalled the target and does not go on. */
  predicate RefusalHolds(s: State) {
    && (s.worker.Signalling? ==> s.refused)
    && (s.refused ==> !HasStarted(s))
    && (s.refused ==> s.target.Signalled? || s.target.Gone?)
    && (s.refused ==> !BeforeStarted(s.worker) && !HasRunTarget(s.worker))
  }

  predicate ItemHolds(s: State, item: LocalRun) {
    && (item.status == RUNNING || item.startedAt.Some? ==> HasStarted(s))
  }

  predicate CliHolds(s: State) {
    && (s.cli.Checking? || s.cli.AwaitingReply? || s.cli.Succeeded? ==> ItemHolds(s, s.cli.item))
    && (s.cli.Succeeded? ==> s.cli.item.status == RUNNING || s.cli.item.startedAt.Some?)
    && (s.cli == GaveUp(false) ==> IsTerminal(s.local.run.status))
    && (s.cli == Polling(true) || s.cli == Failing(true) || s.cli == GaveUp(true) || s.reply == Some(true) ==> s.flags.ack)
    && (s.cli.Launching? ==> s.worker.Unborn?)
    && (HasStarted(s) && s.local.run.status == LOST ==> s.cli == GaveUp(false))
  }

  predicate RowHolds(s: State) {
    s.local.run.status == RUNNING ==> HasStarted(s)
  }

  /** Where the processes are, given the row of the run. */
  predicate PlacesHold(s: State) {
    RowHolds(s) && WorkerHolds(s) && RefusalHolds(s) && CliHolds(s)
  }

  predicate Invariant(s: State) {
    LogHolds(s.local) && PlacesHold(s)
  }

  lemma {:induction false} BeginHolds(s: State)
    requires IsBegin(s)
    ensures Invariant(s)
  {
    assert |s.local.log| == 1 && s.local.log[0].kind == RunCreated;
    assert Kinds(s.local.log) == [RunCreated];
  }

  lemma {:induction false} CliKeepsLog(s: State, step: CliStep)
    requires LogHolds(s.local) && CliEnabled(s, step)
    ensures LogHolds(CliNext(s, step).local)
  {
    if step.MarkLost? {
      AppendedHolds(s.local, RunLost, EndPayload(125, Some("worker_handoff_failed"), "Local Worker handoff failed"), step.stamp);
    }
  }

  lemma {:induction false} MarkingKeepsPlaces(s: State, step: CliStep)
    requires PlacesHold(s) && CliEnabled(s, step) && step.MarkLost?
    ensures PlacesHold(CliNext(s, step))
  {
  }

  lemma {:induction false} CliKeepsPlaces(s: State, step: CliStep)
    requires PlacesHold(s) && CliEnabled(s, step)
    ensures PlacesHold(CliNext(s, step))
  {
    match step
    case MarkLost(_) => MarkingKeepsPlaces(s, step);
    case _ => assert CliNext(s, step).local == s.local;
  }

  lemma {:induction false} StartKeepsLog(s: State, step: WorkerStep)
    requires LogHolds(s.local) && WorkerHolds(s) && WorkerEnabled(s, step) && (step.EmitStarting? || step.Announce?)
    ensures LogHolds(WorkerNext(s, step).local)
  {
    if step.EmitStarting? {
      AppendedHolds(s.local, RunStarting, TextPayload("Preparing local process"), step.stamp);
    } else {
      AppendedHolds(s.local, RunStarted, TextPayload("Run started"), step.stamp);
    }
  }

  lemma {:induction false} SuperviseKeepsLog(s: State, step: WorkerStep)
    requires LogHolds(s.local) && WorkerHolds(s) && WorkerEnabled(s, step) && (step.Report? || step.EmitEnd?)
    ensures LogHolds(Supervise(s, step).local)
  {
    if step.Report? {
      AppendedHolds(s.local, step.kind, step.payload, step.stamp);
    } else {
      AppendedHolds(s.local, s.worker.kind, EndPayload(s.worker.code, EndReason(s.worker.kind), "Run ended"), step.stamp);
    }
  }

  lemma {:induction false} FailureKeepsLog(s: State, step: WorkerStep)
    requires LogHolds(s.local) && WorkerEnabled(s, step) && step.EmitFailure?
    ensures LogHolds(Finish(s, step).local)
  {
    if s.worker.beforeHandoff {
      AppendedHolds(s.local, RunLost, EndPayload(125, Some("handoff_failed"), "Worker handoff failed"), step.stamp);
    } else {
      AppendedHolds(s.local, RunFailed, EndPayload(127, Some("worker_error"), "Worker failed"), step.stamp);
    }
  }

  lemma {:induction false} WorkerKeepsLog(s: State, step: WorkerStep)
    requires LogHolds(s.local) && WorkerHolds(s) && WorkerEnabled(s, step)
    ensures LogHolds(WorkerNext(s, step).local)
  {
    match step
    case EmitStarting(_) => StartKeepsLog(s, step);
    case Announce(_) => StartKeepsLog(s, step);
    case Report(_, _, _) => SuperviseKeepsLog(s, step);
    case EmitEnd(_) => SuperviseKeepsLog(s, step);
    case EmitFailure(_) => FailureKeepsLog(s, step);
    case _ => assert WorkerNext(s, step).local == s.local;
  }

  lemma {:induction false} BeforeTargetKeepsPlaces(s: State, step: WorkerStep)
    requires PlacesHold(s) && WorkerEnabled(s, step)
    requires step.Open? || step.EmitStarting? || step.Prepare? || step.WakeUp? || step.Examine? || step.Acknowledge?
    ensures PlacesHold(BeforeTarget(s, step))
  {
  }

  lemma {:induction false} StartTargetKeepsPlaces(s: State, step: WorkerStep)
    requires PlacesHold(s) && WorkerEnabled(s, step)
    requires step.Spawn? || step.Record? || step.Announce? || step.Reap?
    ensures PlacesHold(StartTarget(s, step))
  {
  }

  lemma {:induction false} EndKeepsPlaces(s: State, step: WorkerStep)
    requires PlacesHold(s) && WorkerEnabled(s, step) && step.EmitEnd?
    ensures PlacesHold(Supervise(s, step))
  {
    var next := Supervise(s, step);
    assert HasStarted(next) == HasStarted(s);
    assert next.local.run.status == s.local.run.status || IsTerminal(next.local.run.status);
  }

  lemma {:induction false} SuperviseKeepsPlaces(s: State, step: WorkerStep)
    requires PlacesHold(s) && WorkerEnabled(s, step)
    requires step.Report? || step.Break? || step.Interrupt? || step.Leave? || step.Judge? || step.EmitEnd?
    ensures PlacesHold(Supervise(s, step))
  {
    if step.EmitEnd? { EndKeepsPlaces(s, step); }
  }

  lemma {:induction false} FailureKeepsPlaces(s: State, step: WorkerStep)
    requires PlacesHold(s) && WorkerEnabled(s, step) && step.EmitFailure?
    ensures PlacesHold(Finish(s, step))
  {
    var next := Finish(s, step);
    assert HasStarted(next) == HasStarted(s);
    assert next.local.run.status == s.local.run.status || IsTerminal(next.local.run.status);
  }

  lemma {:induction false} FinishKeepsPlaces(s: State, step: WorkerStep)
    requires PlacesHold(s) && WorkerEnabled(s, step)
    requires step.Catch? || step.EmitFailure? || step.Close? || step.Die?
    ensures PlacesHold(Finish(s, step))
  {
    if step.EmitFailure? { FailureKeepsPlaces(s, step); }
  }

  lemma {:induction false} WorkerKeepsPlaces(s: State, step: WorkerStep)
    requires PlacesHold(s) && WorkerEnabled(s, step)
    ensures PlacesHold(WorkerNext(s, step))
  {
    match step
    case Open(_) => BeforeTargetKeepsPlaces(s, step);
    case EmitStarting(_) => BeforeTargetKeepsPlaces(s, step);
    case Prepare(_) => BeforeTargetKeepsPlaces(s, step);
    case WakeUp => BeforeTargetKeepsPlaces(s, step);
    case Examine(_) => BeforeTargetKeepsPlaces(s, step);
    case Acknowledge(_) => BeforeTargetKeepsPlaces(s, step);
    case Spawn(_) => StartTargetKeepsPlaces(s, step);
    case Record(_) => StartTargetKeepsPlaces(s, step);
    case Announce(_) => StartTargetKeepsPlaces(s, step);
    case Reap => StartTargetKeepsPlaces(s, step);
    case Catch => FinishKeepsPlaces(s, step);
    case EmitFailure(_) => FinishKeepsPlaces(s, step);
    case Close => FinishKeepsPlaces(s, step);
    case Die => FinishKeepsPlaces(s, step);
    case _ => SuperviseKeepsPlaces(s, step);
  }

  lemma {:induction false} HandledKeepsLog(l: Local, f: Flags, nonce: string, request: Request, stamp: Stamp)
    requires LogHolds(l)
    ensures LogHolds(Handled(l, f, nonce, request, stamp).local)
  {
    match request
    case ReportProgress(current, total, detail, phase, text) =>
      if total > 0.0 {
        AppendedHolds(l, RunProgress, ProgressPayload(Progress(Some(Adapters.Clamped(current, total) / total), detail), phase, text), stamp);
      }
    case ReportPhase(phase) => AppendedHolds(l, RunPhaseChanged, EMPTY_PAYLOAD.(phase := Present(Some(phase))), stamp);
    case ReportMessage(text) => AppendedHolds(l, RunMessage, TextPayload(text), stamp);
    case AskAttention(attention, text) =>
      AppendedHolds(l, RunAttentionRequired, TextPayload(text).(attention := Present(Some(attention))), stamp);
    case _ =>
  }

  lemma {:induction false} HandledIs(l: Local, f: Flags, nonce: string, request: Request, stamp: Stamp)
    ensures var served := Handled(l, f, nonce, request, stamp);
            && served.local.run.status == l.run.status && served.local.run.startedAt == l.run.startedAt
            && (served.flags.ack <==> f.ack || request == HandoffAck(nonce))
            && (request.HandoffAck? ==> (served.ok <==> request.nonce == nonce))
  {
  }

  lemma {:induction false} ServingKeepsPlaces(s: State, request: Request, stamp: Stamp, ours: bool)
    requires PlacesHold(s) && Enabled(s, Serve(request, stamp, ours))
    ensures PlacesHold(AfterServing(s, request, stamp, ours))
  {
    HandledIs(s.local, s.flags, s.nonce, request, stamp);
  }

  lemma {:induction false} StepKeeps(s: State, step: Step)
    requires Invariant(s) && Enabled(s, step)
    ensures Invariant(Next(s, step))
  {
    match step
    case OfCli(c) =>
      CliKeepsLog(s, c);
      CliKeepsPlaces(s, c);
    case OfWorker(w) =>
      WorkerKeepsLog(s, w);
      WorkerKeepsPlaces(s, w);
    case Serve(request, stamp, ours) =>
      HandledKeepsLog(s.local, s.flags, s.nonce, request, stamp);
      ServingKeepsPlaces(s, request, stamp, ours);
    case Terminate => assert Next(s, step).local == s.local && PlacesHold(Next(s, step));
    case TargetExits(_) => assert Next(s, step).local == s.local && PlacesHold(Next(s, step));
  }

  lemma {:induction false} HistoryKeeps(s: State, steps: seq<Step>)
    requires Invariant(s) && Possible(s, steps)
    ensures Invariant(After(s, steps))
    decreases |steps|
  {
    if steps != [] {
      StepKeeps(s, steps[0]);
      HistoryKeeps(Next(s, steps[0]), steps[1..]);
    }
  }
}
