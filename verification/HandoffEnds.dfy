/** How the end of a run tells what has become of its target (cli/src/runbuoy/worker/runtime.py: run, _run_target). */
module HandoffEnds {
  import opened Wrappers
  import opened Events
  import opened Queue
  import opened Handoff
  import opened HandoffSafety
  import opened HandoffTheorems

  /** What an event that ends the run says, given the target and whether the run was cancelled. */
  predicate TellsEnd(kind: EventType, payload: Payload, target: Target, cancelled: bool) {
    match kind
    case RunSucceeded => target == Gone(0) && payload.exitCode == Present(Some(0))
    case RunFailed =>
      || (target.Gone? && target.code != 0 && payload.exitCode == Present(Some(target.code)))
      || (payload.exitCode == Present(Some(127)) && payload.reason == Present(Some("worker_error")))
    case RunCancelled =>
      && cancelled && target.Gone? && payload.reason == Present(Some("local_cancel"))
      && payload.exitCode == Present(Some(if target.code < 0 then 130 else target.code))
    case RunLost => payload.exitCode == Present(Some(125))
    case _ => true
  }

  predicate LogTells(s: State) {
    forall i :: 0 <= i < |s.local.log| ==> TellsEnd(s.local.log[i].kind, s.local.log[i].payload, s.target, s.flags.cancel)
  }

  /** What the Worker is about to say. */
  predicate VerdictTells(s: State) {
    s.worker.Ending? ==>
      && s.target.Gone? && (s.worker.kind == RunCancelled || s.worker.kind == RunSucceeded || s.worker.kind == RunFailed)
      && (s.worker.kind == RunCancelled ==> s.flags.cancel && s.worker.code == if s.target.code < 0 then 130 else s.target.code)
      && (s.worker.kind == RunSucceeded ==> s.worker.code == s.target.code == 0)
      && (s.worker.kind == RunFailed ==> s.worker.code == s.target.code != 0)
  }

  predicate EndsTell(s: State) {
    LogTells(s) && VerdictTells(s)
  }

  /** A target that is gone stays gone, and a cancellation is never taken back. */
  predicate Later(s: State, next: State) {
    (s.target.Gone? ==> next.target == s.target) && (s.flags.cancel ==> next.flags.cancel)
  }

  lemma {:induction false} LogStillTells(s: State, next: State)
    requires LogTells(s) && Later(s, next)
    requires next.local.log == s.local.log || (|next.local.log| == |s.local.log| + 1 && s.local.log == next.local.log[..|s.local.log|]
               && TellsEnd(next.local.log[|s.local.log|].kind, next.local.log[|s.local.log|].payload, next.target, next.flags.cancel))
    ensures LogTells(next)
  {
    forall i | 0 <= i < |next.local.log|
      ensures TellsEnd(next.local.log[i].kind, next.local.log[i].payload, next.target, next.flags.cancel)
    {
      assert i < |s.local.log| ==> next.local.log[i] == s.local.log[i];
    }
  }

  lemma AppendsOne(l: Local, kind: EventType, payload: Payload, stamp: Stamp)
    ensures var after := AppendedIf(l, kind, payload, stamp).log;
            after == l.log || (|after| == |l.log| + 1 && after[..|l.log|] == l.log
                               && after[|l.log|].kind == kind && after[|l.log|].payload == payload)
  {
  }

  lemma {:induction false} CliTells(s: State, step: CliStep)
    requires EndsTell(s) && CliEnabled(s, step)
    ensures EndsTell(CliNext(s, step))
  {
    if step.MarkLost? {
      AppendsOne(s.local, RunLost, EndPayload(125, Some("worker_handoff_failed"), "Local Worker handoff failed"), step.stamp);
    }
    LogStillTells(s, CliNext(s, step));
  }

  lemma {:induction false} EarlyTells(s: State, step: WorkerStep)
    requires EndsTell(s) && WorkerEnabled(s, step)
    requires step.Open? || step.EmitStarting? || step.Prepare? || step.WakeUp? || step.Examine? || step.Acknowledge?
    ensures EndsTell(BeforeTarget(s, step))
  {
    if step.EmitStarting? { AppendsOne(s.local, RunStarting, TextPayload("Preparing local process"), step.stamp); }
    LogStillTells(s, BeforeTarget(s, step));
  }

  lemma {:induction false} StartTells(s: State, step: WorkerStep)
    requires EndsTell(s) && WorkerEnabled(s, step) && (step.Spawn? ==> s.target.NotSpawned?)
    requires step.Spawn? || step.Record? || step.Announce? || step.Reap?
    ensures EndsTell(StartTarget(s, step))
  {
    if step.Announce? { AppendsOne(s.local, RunStarted, TextPayload("Run started"), step.stamp); }
    LogStillTells(s, StartTarget(s, step));
  }

  lemma {:induction false} EndTells(s: State, step: WorkerStep)
    requires EndsTell(s) && WorkerEnabled(s, step) && step.EmitEnd?
    ensures EndsTell(Supervise(s, step))
  {
    AppendsOne(s.local, s.worker.kind, EndPayload(s.worker.code, EndReason(s.worker.kind), "Run ended"), step.stamp);
    LogStillTells(s, Supervise(s, step));
  }

  lemma {:induction false} SuperviseTells(s: State, step: WorkerStep)
    requires EndsTell(s) && WorkerEnabled(s, step)
    requires step.Report? || step.Break? || step.Interrupt? || step.Leave? || step.Judge?
    ensures EndsTell(Supervise(s, step))
  {
    if step.Report? { AppendsOne(s.local, step.kind, step.payload, step.stamp); }
    LogStillTells(s, Supervise(s, step));
  }

  lemma {:induction false} FinishTells(s: State, step: WorkerStep)
    requires EndsTell(s) && WorkerEnabled(s, step)
    requires step.Catch? || step.EmitFailure? || step.Close? || step.Die?
    ensures EndsTell(Finish(s, step))
  {
    if step.EmitFailure? {
      var payload := if s.worker.beforeHandoff then EndPayload(125, Some("handoff_failed"), "Worker handoff failed")
                     else EndPayload(127, Some("worker_error"), "Worker failed");
      AppendsOne(s.local, if s.worker.beforeHandoff then RunLost else RunFailed, payload, step.stamp);
    }
    LogStillTells(s, Finish(s, step));
  }

  lemma {:induction false} WorkerTells(s: State, step: WorkerStep)
    requires EndsTell(s) && WorkerEnabled(s, step) && (step.Spawn? ==> s.target.NotSpawned?)
    ensures EndsTell(WorkerNext(s, step))
  {
    match step
    case Open(_) => EarlyTells(s, step);
    case EmitStarting(_) => EarlyTells(s, step);
    case Prepare(_) => EarlyTells(s, step);
    case WakeUp => EarlyTells(s, step);
    case Examine(_) => EarlyTells(s, step);
    case Acknowledge(_) => EarlyTells(s, step);
    case Spawn(_) => StartTells(s, step);
    case Record(_) => StartTells(s, step);
    case Announce(_) => StartTells(s, step);
    case Reap => StartTells(s, step);
    case Catch => FinishTells(s, step);
    case EmitFailure(_) => FinishTells(s, step);
    case Close => FinishTells(s, step);
    case Die => FinishTells(s, step);
    case EmitEnd(_) => EndTells(s, step);
    case _ => SuperviseTells(s, step);
  }

  lemma {:induction false} ServeAppends(l: Local, f: Flags, nonce: string, request: Request, stamp: Stamp)
    ensures var served := Handled(l, f, nonce, request, stamp);
            && (f.cancel ==> served.flags.cancel)
            && (served.local.log == l.log
                || (|served.local.log| == |l.log| + 1 && served.local.log[..|l.log|] == l.log && !Ends(served.local.log[|l.log|].kind)))
  {
  }

  lemma {:induction false} TellsStep(s: State, step: Step)
    requires EndsTell(s) && Enabled(s, step) && (s.worker.Spawning? ==> s.target.NotSpawned?)
    ensures EndsTell(Next(s, step))
  {
    match step
    case OfCli(c) => CliTells(s, c);
    case OfWorker(w) => WorkerTells(s, w);
    case Serve(request, stamp, _) =>
      ServeAppends(s.local, s.flags, s.nonce, request, stamp);
      LogStillTells(s, Next(s, step));
    case Terminate => LogStillTells(s, Next(s, step));
    case TargetExits(_) => LogStillTells(s, Next(s, step));
  }

  /** There is no target before it is spawned. */
  predicate Unspawned(s: State) {
    BeforeStarted(s.worker) && !s.worker.Recording? && !s.worker.Announcing? ==> s.target.NotSpawned?
  }

  lemma {:induction false} UnspawnedStep(s: State, step: Step)
    requires Unspawned(s) && Enabled(s, step) && (s.cli.Launching? ==> s.worker.Unborn?)
    ensures Unspawned(Next(s, step))
  {
    match step
    case OfWorker(w) => UnspawnedWorkerStep(s, w);
    case _ =>
  }

  lemma {:induction false} UnspawnedWorkerStep(s: State, step: WorkerStep)
    requires Unspawned(s) && WorkerEnabled(s, step)
    ensures Unspawned(WorkerNext(s, step))
  {
  }

  lemma {:induction false} TellsHistory(s: State, steps: seq<Step>)
    requires Invariant(s) && EndsTell(s) && Unspawned(s) && Possible(s, steps)
    ensures EndsTell(After(s, steps))
    decreases |steps|
  {
    if steps != [] {
      TellsStep(s, steps[0]);
      UnspawnedStep(s, steps[0]);
      StepKeeps(s, steps[0]);
      TellsHistory(Next(s, steps[0]), steps[1..]);
    }
  }

  /**
   In every history: run.succeeded says that the target has exited with 0; run.failed says
   the code, other than 0, that it has exited with, or 127 for an error of the Worker;
   run.cancelled follows a cancellation and says the code, with 130 for a signal.
   */
  lemma {:induction false} EndTellsTarget(s: State, steps: seq<Step>, i: nat)
    requires IsBegin(s) && Possible(s, steps) && i < |After(s, steps).local.log|
    ensures var end := After(s, steps); TellsEnd(end.local.log[i].kind, end.local.log[i].payload, end.target, end.flags.cancel)
  {
    BeginHolds(s);
    assert |s.local.log| == 1 && s.local.log[0].kind == RunCreated;
    TellsHistory(s, steps);
  }

  // Runs in which nothing fails.

  /** The Worker neither dies nor meets an error after the start, and its events can be written. */
  predicate Smooth(step: Step) {
    match step
    case OfWorker(Die) => false
    case OfWorker(Break) => false
    case OfWorker(Report(_, _, stamp)) => stamp.works
    case OfWorker(EmitEnd(stamp)) => stamp.works
    case _ => true
  }

  predicate AllSmooth(steps: seq<Step>) {
    forall i :: 0 <= i < |steps| ==> Smooth(steps[i])
  }

  /** The Worker looks at the exit code when the run has been cancelled. */
  predicate JudgesCancelled(s: State, step: Step) {
    step == OfWorker(Judge) && s.flags.cancel
  }

  predicate LastIs(log: seq<Event>, kind: EventType, code: int) {
    log != [] && log[|log| - 1].kind == kind && log[|log| - 1].payload.exitCode == Present(Some(code))
  }

  /** How a run that has started ends: by the code of its target, and by whether it was cancelled. */
  predicate EndsAsExited(l: Local, code: int, cancelled: bool) {
    if cancelled then l.run.status == CANCELLED && LastIs(l.log, RunCancelled, if code < 0 then 130 else code)
    else if code == 0 then l.run.status == SUCCEEDED && LastIs(l.log, RunSucceeded, 0)
    else l.run.status == FAILED && LastIs(l.log, RunFailed, code)
  }

  predicate SmoothHolds(s: State, cancelled: bool) {
    && (!HasStarted(s) ==> !cancelled)
    && (HasStarted(s) && s.local.run.status != LOST ==>
          && (s.worker.Supervising? || s.worker.Draining? ==> !IsTerminal(s.local.run.status) && !cancelled)
          && (s.worker.Supervising? || s.worker.Draining? || s.worker.Ending? || s.worker.Closing? || s.worker.Closed?)
          && (s.worker.Ending? ==>
                && !IsTerminal(s.local.run.status) && s.target.Gone?
                && (s.worker.kind, s.worker.code) ==
                     if cancelled then (RunCancelled, if s.target.code < 0 then 130 else s.target.code)
                     else if s.target.code == 0 then (RunSucceeded, 0) else (RunFailed, s.target.code))
          && (s.worker.Closing? || s.worker.Closed? ==> s.target.Gone? && EndsAsExited(s.local, s.target.code, cancelled)))
  }

  lemma {:induction false} SmoothStartStep(s: State, step: WorkerStep, cancelled: bool)
    requires PlacesHold(s) && SmoothHolds(s, cancelled) && WorkerEnabled(s, step) && Smooth(OfWorker(step))
    requires BeforeStarted(s.worker) || s.worker.Signalling?
    ensures SmoothHolds(WorkerNext(s, step), cancelled)
  {
  }

  lemma {:induction false} SmoothSuperviseStep(s: State, step: WorkerStep, cancelled: bool)
    requires PlacesHold(s) && SmoothHolds(s, cancelled) && WorkerEnabled(s, step) && Smooth(OfWorker(step))
    requires s.worker.Supervising? || s.worker.Draining?
    ensures SmoothHolds(WorkerNext(s, step), cancelled || JudgesCancelled(s, OfWorker(step)))
  {
  }

  lemma {:induction false} SmoothEndStep(s: State, step: WorkerStep, cancelled: bool)
    requires PlacesHold(s) && SmoothHolds(s, cancelled) && WorkerEnabled(s, step) && Smooth(OfWorker(step))
    requires step.EmitEnd?
    ensures SmoothHolds(WorkerNext(s, step), cancelled)
  {
    var next := Supervise(s, step);
    if s.local.run.status != LOST {
      assert next.local.log[|s.local.log|].kind == s.worker.kind;
    }
  }

  lemma {:induction false} SmoothLateStep(s: State, step: WorkerStep, cancelled: bool)
    requires PlacesHold(s) && SmoothHolds(s, cancelled) && WorkerEnabled(s, step) && Smooth(OfWorker(step))
    requires step.Catch? || step.EmitFailure? || step.Close?
    ensures SmoothHolds(WorkerNext(s, step), cancelled)
  {
  }

  lemma {:induction false} SmoothWorkerStep(s: State, step: WorkerStep, cancelled: bool)
    requires PlacesHold(s) && SmoothHolds(s, cancelled) && WorkerEnabled(s, step) && Smooth(OfWorker(step))
    ensures SmoothHolds(WorkerNext(s, step), cancelled || JudgesCancelled(s, OfWorker(step)))
  {
    match step
    case EmitEnd(_) => SmoothEndStep(s, step, cancelled);
    case Catch => SmoothLateStep(s, step, cancelled);
    case EmitFailure(_) => SmoothLateStep(s, step, cancelled);
    case Close => SmoothLateStep(s, step, cancelled);
    case _ =>
      if s.worker.Supervising? || s.worker.Draining? { SmoothSuperviseStep(s, step, cancelled); }
      else { SmoothStartStep(s, step, cancelled); }
  }

  lemma {:induction false} SmoothCliStep(s: State, step: CliStep, cancelled: bool)
    requires PlacesHold(s) && SmoothHolds(s, cancelled) && CliEnabled(s, step)
    ensures SmoothHolds(CliNext(s, step), cancelled)
  {
  }

  lemma {:induction false} SmoothServeStep(s: State, request: Request, stamp: Stamp, ours: bool, cancelled: bool)
    requires SmoothHolds(s, cancelled)
    ensures SmoothHolds(AfterServing(s, request, stamp, ours), cancelled)
  {
    HandledIs(s.local, s.flags, s.nonce, request, stamp);
    if IsTerminal(s.local.run.status) { ServedEnded(s.local, s.flags, s.nonce, request, stamp); }
  }

  lemma ServedEnded(l: Local, f: Flags, nonce: string, request: Request, stamp: Stamp)
    requires IsTerminal(l.run.status)
    ensures Handled(l, f, nonce, request, stamp).local == l
  {
  }

  lemma {:induction false} SmoothStep(s: State, step: Step, cancelled: bool)
    requires PlacesHold(s) && SmoothHolds(s, cancelled) && Enabled(s, step) && Smooth(step)
    ensures SmoothHolds(Next(s, step), cancelled || JudgesCancelled(s, step))
  {
    match step
    case OfCli(c) => SmoothCliStep(s, c, cancelled);
    case OfWorker(w) => SmoothWorkerStep(s, w, cancelled);
    case Serve(request, stamp, ours) => SmoothServeStep(s, request, stamp, ours, cancelled);
    case _ =>
  }

  lemma {:induction false} SmoothHistory(s: State, steps: seq<Step>, cancelled: bool)
    requires Invariant(s) && SmoothHolds(s, cancelled) && Possible(s, steps) && AllSmooth(steps)
    ensures SmoothHolds(After(s, steps), cancelled || Happens(s, steps, JudgesCancelled))
    decreases |steps|
  {
    if steps != [] {
      assert Smooth(steps[0]) && forall i :: 0 <= i < |steps[1..]| ==> steps[1..][i] == steps[i + 1];
      SmoothStep(s, steps[0], cancelled);
      StepKeeps(s, steps[0]);
      SmoothHistory(Next(s, steps[0]), steps[1..], cancelled || JudgesCancelled(s, steps[0]));
    }
  }

  /**
   A run that has started, whose Worker is done and has met no error, and that was not
   marked as lost, ends as its target has exited: cancelled exactly if it had been cancelled
   when the Worker looked at the exit code, and otherwise succeeded exactly if that is 0.
   */
  lemma {:induction false} SmoothRunEnds(s: State, steps: seq<Step>)
    requires IsBegin(s) && Possible(s, steps) && AllSmooth(steps)
    requires var end := After(s, steps); end.worker.Closed? && Has(end.local.log, RunStarted) && !Has(end.local.log, RunLost)
    ensures var end := After(s, steps); end.target.Gone? && EndsAsExited(end.local, end.target.code, Happens(s, steps, JudgesCancelled))
    ensures !After(s, steps).flags.cancel ==> !Happens(s, steps, JudgesCancelled)
  {
    BeginHolds(s);
    HistoryKeeps(s, steps);
    SmoothHistory(s, steps, false);
    if Happens(s, steps, JudgesCancelled) { CancelStays(s, steps); }
  }

  lemma {:induction false} CancelStays(s: State, steps: seq<Step>)
    requires Possible(s, steps) && (s.flags.cancel || Happens(s, steps, JudgesCancelled))
    ensures After(s, steps).flags.cancel
    decreases |steps|
  {
    if steps != [] {
      if s.flags.cancel { CancelStep(s, steps[0]); }
      CancelStays(Next(s, steps[0]), steps[1..]);
    }
  }

  lemma {:induction false} CancelStep(s: State, step: Step)
    requires Enabled(s, step) && s.flags.cancel
    ensures Next(s, step).flags.cancel
  {
    match step
    case OfWorker(w) => CancelWorkerStep(s, w);
    case _ =>
  }

  lemma CancelWorkerStep(s: State, step: WorkerStep)
    requires WorkerEnabled(s, step) && s.flags.cancel
    ensures WorkerNext(s, step).flags.cancel
  {
  }
}
