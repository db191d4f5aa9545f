/** What becomes of the target when its Worker is done. */
module HandoffTargets {
  import opened Wrappers
  import opened Events
  import opened Queue
  import opened Handoff
  import opened HandoffSafety
  import opened HandoffTheorems

  /** The Worker dies. */
  predicate Dies(steps: seq<Step>) {
    exists i :: 0 <= i < |steps| && steps[i] == OfWorker(Die)
  }

  /** The process ids cannot be written after the target was spawned. */
  predicate FailsToRecord(steps: seq<Step>) {
    exists i :: 0 <= i < |steps| && steps[i] == OfWorker(Record(false))
  }

  predicate Exits(steps: seq<Step>) {
    exists i :: 0 <= i < |steps| && steps[i].TargetExits?
  }

  /** A supervised target is signalled because the run was cancelled. */
  predicate Interrupts(steps: seq<Step>) {
    exists i :: 0 <= i < |steps| && steps[i] == OfWorker(Interrupt)
  }

  /** An error ends the supervision of the target; an event that cannot be written is one. */
  predicate BreaksOff(s: State, step: Step) {
    && s.worker.Supervising? && step.OfWorker?
    && (step.w.Break? || (step.w.Report? && !Appends(s.local, step.w.stamp)))
  }

  /** What has happened so far. */
  datatype Past = Past(failed: bool, exited: bool, broke: bool, interrupted: bool)

  function PastNext(s: State, p: Past, step: Step): Past {
    Past(p.failed || step == OfWorker(Record(false)), p.exited || step.TargetExits?,
         p.broke || BreaksOff(s, step), p.interrupted || step == OfWorker(Interrupt))
  }

  predicate BeforeSpawn(w: Worker) {
    BeforeStarting(w) || w.Preparing? || w.Waiting? || w.Examining? || w.Acknowledging? || w.Spawning?
  }

  predicate AfterError(w: Worker) {
    w.Caught? || w.Reporting? || w.Closing? || w.Closed?
  }

  /** Where the target is while the Worker goes its way, */
  predicate OnTheWay(s: State) {
    && !s.worker.Died?
    && (BeforeSpawn(s.worker) ==> s.target.NotSpawned?)
    && (s.worker.Recording? || s.worker.Announcing? ==> s.target.Alive? || s.target.Gone?)
    && (s.worker.Supervising? ==> !s.target.NotSpawned?)
    && (s.worker.Signalling? ==> s.target.Signalled? || s.target.Gone?)
    && (s.worker.Draining? || s.worker.Ending? ==> s.target.Gone?)
  }

  /** and by what has happened. */
  predicate TargetHolds(s: State, p: Past) {
    && OnTheWay(s)
    && (s.target.Gone? <==> p.exited)
    && (p.failed || p.broke ==> AfterError(s.worker) && !s.target.NotSpawned?)
    && (p.failed ==> !HasStarted(s) && !p.broke && !p.interrupted)
    && (p.broke || p.interrupted ==> HasStarted(s))
    && (p.interrupted ==> s.target.Signalled? || s.target.Gone?)
    && (AfterError(s.worker) && (s.target.Alive? || s.target.Signalled?) ==> p.failed || p.broke)
    && (s.target.Signalled? && !s.worker.Signalling? ==> p.interrupted)
  }

  lemma {:induction false} TargetCliStep(s: State, step: CliStep, p: Past)
    requires PlacesHold(s) && TargetHolds(s, p) && CliEnabled(s, step)
    ensures TargetHolds(CliNext(s, step), p)
  {
    var next := CliNext(s, step);
    assert HasStarted(next) == HasStarted(s) && next.target == s.target && (next.worker == s.worker || step.Launch?);
  }

  lemma {:induction false} TargetEarlyStep(s: State, step: WorkerStep, p: Past)
    requires PlacesHold(s) && TargetHolds(s, p) && WorkerEnabled(s, step)
    requires step.Open? || step.EmitStarting? || step.Prepare? || step.WakeUp? || step.Examine? || step.Acknowledge?
    ensures TargetHolds(BeforeTarget(s, step), p)
  {
  }

  lemma {:induction false} TargetStartStep(s: State, step: WorkerStep, p: Past)
    requires PlacesHold(s) && TargetHolds(s, p) && WorkerEnabled(s, step)
    requires step.Spawn? || step.Record? || step.Announce? || step.Reap?
    ensures TargetHolds(StartTarget(s, step), PastNext(s, p, OfWorker(step)))
  {
  }

  lemma {:induction false} TargetReportStep(s: State, step: WorkerStep, p: Past)
    requires PlacesHold(s) && TargetHolds(s, p) && WorkerEnabled(s, step) && (step.Report? || step.EmitEnd?)
    ensures TargetHolds(Supervise(s, step), PastNext(s, p, OfWorker(step)))
  {
    var next := Supervise(s, step);
    assert HasStarted(next) == HasStarted(s) && next.target == s.target;
  }

  lemma {:induction false} TargetSuperviseStep(s: State, step: WorkerStep, p: Past)
    requires PlacesHold(s) && TargetHolds(s, p) && WorkerEnabled(s, step)
    requires step.Break? || step.Interrupt? || step.Leave? || step.Judge?
    ensures TargetHolds(Supervise(s, step), PastNext(s, p, OfWorker(step)))
  {
  }

  lemma {:induction false} TargetLateStep(s: State, step: WorkerStep, p: Past)
    requires PlacesHold(s) && TargetHolds(s, p) && WorkerEnabled(s, step)
    requires step.Catch? || step.EmitFailure? || step.Close?
    ensures TargetHolds(Finish(s, step), p)
  {
    var next := Finish(s, step);
    assert HasStarted(next) == HasStarted(s) && next.target == s.target;
  }

  lemma {:induction false} TargetWorkerStep(s: State, step: WorkerStep, p: Past)
    requires PlacesHold(s) && TargetHolds(s, p) && WorkerEnabled(s, step) && !step.Die?
    ensures TargetHolds(WorkerNext(s, step), PastNext(s, p, OfWorker(step)))
  {
    match step
    case Spawn(_) => TargetStartStep(s, step, p);
    case Record(_) => TargetStartStep(s, step, p);
    case Announce(_) => TargetStartStep(s, step, p);
    case Reap => TargetStartStep(s, step, p);
    case Catch => TargetLateStep(s, step, p);
    case EmitFailure(_) => TargetLateStep(s, step, p);
    case Close => TargetLateStep(s, step, p);
    case Report(_, _, _) => TargetReportStep(s, step, p);
    case EmitEnd(_) => TargetReportStep(s, step, p);
    case Break => TargetSuperviseStep(s, step, p);
    case Interrupt => TargetSuperviseStep(s, step, p);
    case Leave => TargetSuperviseStep(s, step, p);
    case Judge => TargetSuperviseStep(s, step, p);
    case _ => TargetEarlyStep(s, step, p);
  }

  lemma {:induction false} TargetStep(s: State, step: Step, p: Past)
    requires PlacesHold(s) && TargetHolds(s, p) && Enabled(s, step) && step != OfWorker(Die)
    ensures TargetHolds(Next(s, step), PastNext(s, p, step))
  {
    match step
    case OfCli(c) => TargetCliStep(s, c, p);
    case OfWorker(w) => TargetWorkerStep(s, w, p);
    case Serve(request, stamp, _) => HandledIs(s.local, s.flags, s.nonce, request, stamp);
    case _ =>
  }

  lemma {:induction false} FirstOrRest(step: Step, steps: seq<Step>)
    requires steps != [] && step == steps[0]
    ensures Dies(steps) <==> step == OfWorker(Die) || Dies(steps[1..])
    ensures FailsToRecord(steps) <==> step == OfWorker(Record(false)) || FailsToRecord(steps[1..])
    ensures Exits(steps) <==> step.TargetExits? || Exits(steps[1..])
    ensures Interrupts(steps) <==> step == OfWorker(Interrupt) || Interrupts(steps[1..])
  {
    assert steps == [step] + steps[1..];
    assert forall x :: x in steps <==> x == step || x in steps[1..];
    assert forall x :: (exists i :: 0 <= i < |steps| && steps[i] == x) <==> x in steps;
    assert forall x :: (exists i :: 0 <= i < |steps[1..]| && steps[1..][i] == x) <==> x in steps[1..];
  }

  ghost function PastAfter(s: State, p: Past, steps: seq<Step>): Past
    requires Possible(s, steps)
  {
    Past(p.failed || FailsToRecord(steps), p.exited || Exits(steps), p.broke || Happens(s, steps, BreaksOff), p.interrupted || Interrupts(steps))
  }

  lemma {:induction false} PastInParts(s: State, p: Past, steps: seq<Step>)
    requires Possible(s, steps) && steps != []
    ensures PastAfter(s, p, steps) == PastAfter(Next(s, steps[0]), PastNext(s, p, steps[0]), steps[1..])
  {
    FirstOrRest(steps[0], steps);
  }

  lemma {:induction false} TargetHistory(s: State, steps: seq<Step>, p: Past)
    requires Invariant(s) && TargetHolds(s, p) && Possible(s, steps) && !Dies(steps)
    ensures TargetHolds(After(s, steps), PastAfter(s, p, steps))
    decreases |steps|
  {
    if steps != [] {
      FirstOrRest(steps[0], steps);
      PastInParts(s, p, steps);
      StepKeeps(s, steps[0]);
      TargetStep(s, steps[0], p);
      TargetHistory(Next(s, steps[0]), steps[1..], PastNext(s, p, steps[0]));
    }
  }

  /**
   What becomes of the target of a Worker that is done and has not died: it is gone exactly
   if it has exited; it lives on exactly if it has not and either the process ids could not
   be written or an error ended its supervision, and it has been signalled exactly if the
   run was cancelled while it was supervised.  The first happens to runs that never start,
   the second to runs that have started.
   */
  lemma {:induction false} AbandonedTarget(s: State, steps: seq<Step>)
    requires IsBegin(s) && Possible(s, steps) && !Dies(steps) && After(s, steps).worker.Closed?
    ensures var end, failed, broke := After(s, steps), FailsToRecord(steps), Happens(s, steps, BreaksOff);
            && (end.target.Gone? <==> Exits(steps))
            && (end.target.Alive? <==> !Exits(steps) && (failed || (broke && !Interrupts(steps))))
            && (end.target.Signalled? <==> !Exits(steps) && broke && Interrupts(steps))
            && (failed ==> !Has(end.local.log, RunStarted)) && (broke ==> Has(end.local.log, RunStarted))
  {
    BeginHolds(s);
    HistoryKeeps(s, steps);
    TargetHistory(s, steps, Past(false, false, false, false));
  }

  // Such histories.

  /** The Worker has caught an error while the target is alive. */
  predicate ErrorIsCaught(s: State) {
    s.worker.Caught? && s.target.Alive? && s.flags.ack
  }

  lemma {:induction false} WorkerReports(s: State, caught: seq<Step>) returns (steps: seq<Step>)
    requires Possible(s, caught) && After(s, caught).worker == Reporting(false) && After(s, caught).target.Alive?
    ensures Possible(s, steps)
    ensures var at, end := After(s, caught), After(s, steps);
            && end.worker.Closed? && end.target.Alive? && HasStarted(end) == HasStarted(at)
            && end.local.run.status == if IsTerminal(at.local.run.status) then at.local.run.status else FAILED
  {
    steps := caught;
    OneMore(s, steps, OfWorker(EmitFailure(Works(5))));
    steps := steps + [OfWorker(EmitFailure(Works(5)))];
    OneMore(s, steps, OfWorker(Close));
    steps := steps + [OfWorker(Close)];
  }

  lemma {:induction false} WorkerGivesUp(s: State, caught: seq<Step>) returns (steps: seq<Step>)
    requires Possible(s, caught) && ErrorIsCaught(After(s, caught))
    ensures Possible(s, steps)
    ensures var at, end := After(s, caught), After(s, steps);
            && end.worker.Closed? && end.target.Alive? && HasStarted(end) == HasStarted(at)
            && end.local.run.status == if IsTerminal(at.local.run.status) then at.local.run.status else FAILED
  {
    OneMore(s, caught, OfWorker(Catch));
    steps := WorkerReports(s, caught + [OfWorker(Catch)]);
  }

  /** The Worker is done, and the target that it has spawned was never signalled: the process ids could not be written. */
  lemma {:induction false} TargetIsAbandoned(s: State) returns (steps: seq<Step>)
    requires IsBegin(s)
    ensures Possible(s, steps)
    ensures var end := After(s, steps); end.worker.Closed? && end.target.Alive? && !Has(end.local.log, RunStarted)
  {
    var sent := SendsAck(s);
    var lost := LosesReply(s, sent);
    var spawned := TargetSpawns(s, lost);
    BeginHolds(s);
    HistoryKeeps(s, spawned);
    steps := spawned + [OfWorker(Record(false))];
    OneMore(s, spawned, OfWorker(Record(false)));
    steps := WorkerGivesUp(s, steps);
    HistoryKeeps(s, steps);
  }

  /** The same of a run that has started and has failed: an error ended the supervision. */
  lemma {:induction false} StartedTargetIsAbandoned(s: State) returns (steps: seq<Step>)
    requires IsBegin(s)
    ensures Possible(s, steps)
    ensures var end := After(s, steps);
            end.worker.Closed? && end.target.Alive? && Has(end.local.log, RunStarted) && end.local.run.status == FAILED
  {
    var sent := SendsAck(s);
    var lost := LosesReply(s, sent);
    var spawned := TargetSpawns(s, lost);
    var started := TargetStarts(s, spawned);
    BeginHolds(s);
    HistoryKeeps(s, started);
    steps := started + [OfWorker(Break)];
    OneMore(s, started, OfWorker(Break));
    steps := WorkerGivesUp(s, steps);
    HistoryKeeps(s, steps);
  }

  const HEARTBEAT := Report(RunHeartbeat, EMPTY_PAYLOAD, Stamp(true, 0, 6))

  /** And of a run that was marked as lost while its target was supervised: the next heartbeat ends the supervision. */
  lemma {:induction false} LostTargetIsAbandoned(s: State) returns (steps: seq<Step>)
    requires IsBegin(s)
    ensures Possible(s, steps)
    ensures var end := After(s, steps);
            end.worker.Closed? && end.target.Alive? && Has(end.local.log, RunStarted) && end.local.run.status == LOST
  {
    var live := LostWithLiveTarget(s);
    BeginHolds(s);
    HistoryKeeps(s, live);
    steps := live + [OfWorker(HEARTBEAT)];
    OneMore(s, live, OfWorker(HEARTBEAT));
    steps := WorkerGivesUp(s, steps);
    HistoryKeeps(s, steps);
  }
}
