/**
 What the Worker answers on its socket and has done when it says so, what its handoff file
 says, and why it gives up (cli/src/runbuoy/worker/runtime.py: socket_handler,
 _wait_for_handoff, run).
 */
module HandoffReplies {
  import opened Wrappers
  import opened Events
  import opened Queue
  import opened Handoff
  import Adapters

  /** Events can be logged: the store can be written and the run has not ended. */
  predicate CanLog(l: Local, stamp: Stamp) {
    stamp.works && l.run.status in {CREATED, STARTING, RUNNING}
  }

  /** The requests that are answered with success. */
  predicate IsServed(l: Local, f: Flags, nonce: string, request: Request, stamp: Stamp) {
    match request
    case HandoffAck(sent) => sent == nonce
    case Cancel => true
    case ReportProgress(current, total, _, _, _) => current >= f.lastExplicit && total > 0.0 && CanLog(l, stamp)
    case ReportPhase(_) => CanLog(l, stamp)
    case ReportMessage(_) => CanLog(l, stamp)
    case AskAttention(attention, _) => attention in {INFORMATION, WARNING, ACTION_REQUIRED} && CanLog(l, stamp)
    case Malformed => false
  }

  /** The part of the work that is done, between nothing and all of it. */
  predicate IsShare(share: real, current: real, total: real) {
    if current <= 0.0 then share == 0.0 else if current >= total then share == 1.0 else share * total == current
  }

  /** The event says what was requested, and nothing else. */
  predicate EventTells(e: Event, request: Request) {
    && e.payload.exitCode == Absent && e.payload.reason == Absent && e.payload.logTail == Absent
    && match request
       case ReportProgress(current, total, detail, phase, text) =>
         && e.kind == RunProgress && total > 0.0
         && e.payload.progress.Present? && e.payload.progress.value.Some?
         && e.payload.progress.value.value.fraction.Some? && e.payload.progress.value.value.detail == detail
         && IsShare(e.payload.progress.value.value.fraction.value, current, total)
         && e.payload.phase == (if phase.Some? then Present(phase) else Absent)
         && e.payload.message == (if text.Some? then Present(text) else Absent) && e.payload.attention == Absent
       case ReportPhase(phase) => e.kind == RunPhaseChanged && e.payload == EMPTY_PAYLOAD.(phase := Present(Some(phase)))
       case ReportMessage(text) => e.kind == RunMessage && e.payload == EMPTY_PAYLOAD.(message := Present(Some(text)))
       case AskAttention(attention, text) =>
         && e.kind == RunAttentionRequired
         && e.payload == EMPTY_PAYLOAD.(attention := Present(Some(attention)), message := Present(Some(text)))
       case _ => false
  }

  predicate LogsOne(before: Local, after: Local, request: Request, stamp: Stamp) {
    && |after.log| == |before.log| + 1 && after.log[..|before.log|] == before.log
    && after.log[|before.log|].at == stamp.at && after.log[|before.log|].id == stamp.id
    && after.log[|before.log|].runId == before.run.id && EventTells(after.log[|before.log|], request)
  }

  /**
   A request is answered with success exactly if it is one of those, and then it has been
   done: the acknowledgement or the cancellation is noted, or the log is longer by the one
   event.  Else nothing has been done, except that a progress is remembered that could not be logged.
   */
  lemma {:induction false} ReplyTells(l: Local, f: Flags, nonce: string, request: Request, stamp: Stamp)
    ensures var served := Handled(l, f, nonce, request, stamp);
            && (served.ok <==> IsServed(l, f, nonce, request, stamp))
            && (served.flags.ack <==> f.ack || request == HandoffAck(nonce))
            && (served.flags.cancel <==> f.cancel || request == Cancel)
            && (if served.ok && !request.HandoffAck? && !request.Cancel? then LogsOne(l, served.local, request, stamp) else served.local == l)
            && (served.ok && request.ReportProgress? ==>
                  served.flags.lastExplicit ==
                    if request.current <= 0.0 then 0.0 else if request.current >= request.total then request.total else request.current)
            && (!request.ReportProgress? ==> served.flags.lastExplicit == f.lastExplicit)
  {
    AppendsIfCan(l, stamp);
    if request.ReportProgress? && request.total > 0.0 { ShareOf(request.current, request.total); }
    if request.AskAttention? { AnyAttention(request.attention); }
  }

  lemma AppendsIfCan(l: Local, stamp: Stamp)
    ensures Appends(l, stamp) <==> CanLog(l, stamp)
  {
    var status := l.run.status;
    assert status.CREATED? || status.STARTING? || status.RUNNING? || status.SUCCEEDED? || status.FAILED? || status.CANCELLED? || status.LOST?;
  }

  lemma AnyAttention(attention: Attention)
    ensures attention.NONE? <==> attention !in {INFORMATION, WARNING, ACTION_REQUIRED}
  {
    assert attention.NONE? || attention.INFORMATION? || attention.WARNING? || attention.ACTION_REQUIRED?;
  }

  lemma ShareOf(current: real, total: real)
    requires total > 0.0
    ensures IsShare(Adapters.Clamped(current, total) / total, current, total)
  {
  }

  /**
   A request that is read does to the shared state what its answer says, and nothing else;
   the command's own acknowledgement is answered with success.
   */
  lemma {:induction false} ServeTells(s: State, request: Request, stamp: Stamp, ours: bool)
    requires Enabled(s, Serve(request, stamp, ours))
    ensures var after, served := Next(s, Serve(request, stamp, ours)), IsServed(s.local, s.flags, s.nonce, request, stamp);
            && after == s.(local := after.local, flags := after.flags, inFlight := after.inFlight, reply := after.reply)
            && (after.flags.ack <==> s.flags.ack || request == HandoffAck(s.nonce))
            && (after.flags.cancel <==> s.flags.cancel || request == Cancel)
            && (if served && !request.HandoffAck? && !request.Cancel? then LogsOne(s.local, after.local, request, stamp) else after.local == s.local)
            && (if ours then after.reply == Some(true) && !after.inFlight else after.reply == s.reply && after.inFlight == s.inFlight)
  {
    ReplyTells(s.local, s.flags, s.nonce, request, stamp);
  }

  // When there is someone to answer.

  /**
   Only a Worker that has opened its socket and neither closed it nor died reads requests,
   only a cancelled run has a signalled target, and no acknowledgement is on its way before
   the Worker has written the handoff file.
   */
  predicate SocketHolds(s: State) {
    && (s.serving ==> s.worker !in {Unborn, OpeningSocket, Closed, Died})
    && (s.target.Signalled? ==> s.flags.cancel)
    && (s.cli.Launching? ==> s.worker.Unborn?)
    && (s.inFlight ==> s.file != Missing)
  }

  lemma {:induction false} SocketWorkerStep(s: State, step: WorkerStep)
    requires SocketHolds(s) && WorkerEnabled(s, step)
    ensures SocketHolds(WorkerNext(s, step))
  {
    match step
    case Judge => assert WorkerNext(s, step).worker.Ending?;
    case _ =>
  }

  lemma {:induction false} SocketCliStep(s: State, step: CliStep)
    requires SocketHolds(s) && CliEnabled(s, step)
    ensures SocketHolds(CliNext(s, step))
  {
  }

  lemma {:induction false} SocketStep(s: State, step: Step)
    requires SocketHolds(s) && Enabled(s, step)
    ensures SocketHolds(Next(s, step))
  {
    match step
    case OfCli(c) => SocketCliStep(s, c);
    case OfWorker(w) => SocketWorkerStep(s, w);
    case Serve(request, stamp, _) => ReplyTells(s.local, s.flags, s.nonce, request, stamp);
    case _ =>
  }

  lemma {:induction false} SocketHistory(s: State, steps: seq<Step>)
    requires SocketHolds(s) && Possible(s, steps)
    ensures SocketHolds(After(s, steps))
    decreases |steps|
  {
    if steps != [] {
      SocketStep(s, steps[0]);
      SocketHistory(Next(s, steps[0]), steps[1..]);
    }
  }

  /** So it is in every history. */
  lemma {:induction false} OnlyRunningWorkersServe(s: State, steps: seq<Step>, request: Request, stamp: Stamp, ours: bool)
    requires IsBegin(s) && Possible(s, steps)
    ensures var end := After(s, steps);
            && (Enabled(end, Serve(request, stamp, ours)) ==> end.worker !in {Unborn, OpeningSocket, Closed, Died})
            && (end.target.Signalled? ==> end.flags.cancel)
            && (end.inFlight ==> end.file != Missing)
  {
    SocketHistory(s, steps);
  }

  // The handoff file.

  predicate FileHolds(s: State) {
    && (s.worker.Acknowledging? || s.file == Acknowledged ==> s.flags.ack)
    && (s.worker.Waiting? || s.worker.Examining? || s.worker.Acknowledging? ==> s.file == Ready)
    && (s.worker.Spawning? || s.target != NotSpawned ==> s.file == Acknowledged)
    && (s.worker.Preparing? || s.worker.EmittingStarting? || s.worker.OpeningSocket? || s.worker.Unborn? ==> s.file == Missing)
    && (s.cli.Launching? ==> s.worker.Unborn?)
    && (s.worker.Recording? || s.worker.Announcing? || s.worker.Supervising? ==> s.target != NotSpawned)
  }

  lemma {:induction false} FileWorkerStep(s: State, step: WorkerStep)
    requires FileHolds(s) && WorkerEnabled(s, step)
    ensures FileHolds(WorkerNext(s, step))
  {
    match step
    case Spawn(_) => FileStartStep(s, step);
    case Record(_) => FileStartStep(s, step);
    case Announce(_) => FileStartStep(s, step);
    case Reap => FileStartStep(s, step);
    case Judge => assert WorkerNext(s, step).worker.Ending?;
    case _ =>
  }

  lemma {:induction false} FileStartStep(s: State, step: WorkerStep)
    requires FileHolds(s) && WorkerEnabled(s, step) && (step.Spawn? || step.Record? || step.Announce? || step.Reap?)
    ensures FileHolds(StartTarget(s, step))
  {
  }

  lemma {:induction false} FileCliStep(s: State, step: CliStep)
    requires FileHolds(s) && CliEnabled(s, step)
    ensures FileHolds(CliNext(s, step))
  {
  }

  lemma {:induction false} FileStep(s: State, step: Step)
    requires FileHolds(s) && Enabled(s, step)
    ensures FileHolds(Next(s, step))
  {
    match step
    case OfCli(c) => FileCliStep(s, c);
    case OfWorker(w) => FileWorkerStep(s, w);
    case Serve(request, stamp, _) => ReplyTells(s.local, s.flags, s.nonce, request, stamp);
    case _ =>
  }

  lemma {:induction false} FileHistory(s: State, steps: seq<Step>)
    requires FileHolds(s) && Possible(s, steps)
    ensures FileHolds(After(s, steps))
    decreases |steps|
  {
    if steps != [] {
      FileStep(s, steps[0]);
      FileHistory(Next(s, steps[0]), steps[1..]);
    }
  }

  /** In every history the handoff file says that the run was acknowledged only if it was, and says so before the target is spawned. */
  lemma {:induction false} FileTells(s: State, steps: seq<Step>)
    requires IsBegin(s) && Possible(s, steps)
    ensures var end := After(s, steps);
            (end.file == Acknowledged ==> end.flags.ack) && (end.target != NotSpawned ==> end.file == Acknowledged)
  {
    FileHistory(s, steps);
  }

  // Why a Worker gives up.

  /** Something fails, its time is over, it has been cancelled, or its run has ended otherwise. */
  predicate IsReason(s: State, step: Step) {
    match step
    case OfWorker(Open(ok)) => !ok
    case OfWorker(Prepare(ok)) => !ok
    case OfWorker(Acknowledge(ok)) => !ok
    case OfWorker(Spawn(ok)) => !ok
    case OfWorker(Record(ok)) => !ok
    case OfWorker(Examine(expired)) => expired || s.flags.cancel || s.local.run.status == LOST
    case OfWorker(Break) => true
    case OfWorker(EmitStarting(stamp)) => !CanLog(s.local, stamp)
    case OfWorker(Announce(stamp)) => !CanLog(s.local, stamp)
    case OfWorker(Report(_, _, stamp)) => !CanLog(s.local, stamp)
    case OfWorker(EmitEnd(stamp)) => !CanLog(s.local, stamp)
    case _ => false
  }

  ghost predicate HasReason(s: State, steps: seq<Step>)
    requires Possible(s, steps)
    decreases |steps|
  {
    steps != [] && (IsReason(s, steps[0]) || HasReason(Next(s, steps[0]), steps[1..]))
  }

  /** The Worker is on its way to report an error. */
  predicate HasGivenUp(w: Worker) {
    w.Signalling? || w.Caught? || w.Reporting?
  }

  lemma {:induction false} GivesUpStep(s: State, step: Step)
    requires Enabled(s, step) && !HasGivenUp(s.worker)
    ensures HasGivenUp(Next(s, step).worker) <==> IsReason(s, step)
  {
    match step
    case OfWorker(w) => GivesUpWorkerStep(s, w);
    case _ =>
  }

  lemma {:induction false} GivesUpWorkerStep(s: State, step: WorkerStep)
    requires WorkerEnabled(s, step) && !HasGivenUp(s.worker)
    ensures HasGivenUp(WorkerNext(s, step).worker) <==> IsReason(s, OfWorker(step))
  {
    match step
    case EmitStarting(stamp) => AppendsIfCan(s.local, stamp);
    case Announce(stamp) => AppendsIfCan(s.local, stamp);
    case Report(_, _, stamp) => AppendsIfCan(s.local, stamp);
    case EmitEnd(stamp) => AppendsIfCan(s.local, stamp);
    case _ =>
  }

  lemma {:induction false} GivesUpHistory(s: State, steps: seq<Step>)
    requires Possible(s, steps) && !HasGivenUp(s.worker) && HasGivenUp(After(s, steps).worker)
    ensures HasReason(s, steps)
    decreases |steps|
  {
    GivesUpStep(s, steps[0]);
    if !IsReason(s, steps[0]) { GivesUpHistory(Next(s, steps[0]), steps[1..]); }
  }

  /** In every history a Worker gives up only for one of the reasons, and at the first of them that it meets. */
  lemma {:induction false} GivesUpForReason(s: State, steps: seq<Step>, step: Step)
    requires IsBegin(s) && Possible(s, steps) && Enabled(After(s, steps), step)
    ensures HasGivenUp(After(s, steps).worker) ==> HasReason(s, steps)
    ensures !HasGivenUp(After(s, steps).worker) ==> (HasGivenUp(Next(After(s, steps), step).worker) <==> IsReason(After(s, steps), step))
  {
    if HasGivenUp(After(s, steps).worker) {
      GivesUpHistory(s, steps);
    } else {
      GivesUpStep(After(s, steps), step);
    }
  }
}
