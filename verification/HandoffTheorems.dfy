/** What the command-line process and the Worker guarantee each other, whatever the interleaving. */
module HandoffTheorems {
  import opened Wrappers
  import opened Events
  import opened Queue
  import opened Sequences
  import opened Handoff
  import opened HandoffSafety
  import Adapters
  import Pipeline
  import PipelineTheorems

  /** Exactly a run that has ended has an event that ends it, and nothing follows that event. */
  predicate EndsAtMostOnce(l: Local) {
    var n := |l.log| - 1;
    n >= 0 && (forall i :: 0 <= i < n ==> !Ends(l.log[i].kind)) && (IsTerminal(l.run.status) <==> Ends(l.log[n].kind))
  }

  lemma {:induction false} EndIsLast(l: Local)
    requires LogHolds(l)
    ensures EndsAtMostOnce(l)
  {
    var n := |l.log| - 1;
    forall i | 0 <= i < n ensures !Ends(l.log[i].kind) {
      assert Follows(Kinds(l.log)[i], Kinds(l.log)[n]);
    }
    if HasEnd(l.log) {
      var i :| 0 <= i < |l.log| && Ends(l.log[i].kind);
      assert i == n;
    }
  }

  /** The log that the two processes write has the shape that the pipeline needs, and at most one end, at its end. */
  lemma {:induction false} LogIsWellShaped(s: State, steps: seq<Step>)
    requires IsBegin(s) && Possible(s, steps)
    ensures WorkerShaped(After(s, steps).local.log) && EndsAtMostOnce(After(s, steps).local)
  {
    BeginHolds(s);
    HistoryKeeps(s, steps);
    EndIsLast(After(s, steps).local);
  }

  // Acknowledgement.

  predicate AckServed(nonce: string, steps: seq<Step>) {
    exists i :: 0 <= i < |steps| && steps[i].Serve? && steps[i].request == HandoffAck(nonce)
  }

  lemma {:induction false} NonceStays(s: State, step: Step)
    requires Enabled(s, step)
    ensures Next(s, step).nonce == s.nonce
    ensures Next(s, step).flags.ack ==> s.flags.ack || (step.Serve? && step.request == HandoffAck(s.nonce))
  {
    if step.Serve? { HandledIs(s.local, s.flags, s.nonce, step.request, step.stamp); }
  }

  lemma {:induction false} AckWasServed(s: State, steps: seq<Step>)
    requires Possible(s, steps) && !s.flags.ack && After(s, steps).flags.ack
    ensures AckServed(s.nonce, steps)
    decreases |steps|
  {
    if steps != [] {
      var next := Next(s, steps[0]);
      NonceStays(s, steps[0]);
      if !next.flags.ack {
        AckWasServed(next, steps[1..]);
        var i :| 0 <= i < |steps[1..]| && steps[1..][i].Serve? && steps[1..][i].request == HandoffAck(s.nonce);
        assert steps[i + 1] == steps[1..][i];
      }
    }
  }

  /** The supervision loop is entered only after an acknowledgement with the nonce of the manifest and a committed run.started. */
  lemma {:induction false} SupervisionIsAcknowledged(s: State, steps: seq<Step>)
    requires IsBegin(s) && Possible(s, steps) && HasRunTarget(After(s, steps).worker)
    ensures AckServed(s.nonce, steps) && Has(After(s, steps).local.log, RunStarted)
  {
    BeginHolds(s);
    HistoryKeeps(s, steps);
    AckWasServed(s, steps);
  }

  /** When the command-line process reports success the run has started. */
  lemma {:induction false} SuccessMeansStarted(s: State, steps: seq<Step>)
    requires IsBegin(s) && Possible(s, steps) && After(s, steps).cli.Succeeded?
    ensures Has(After(s, steps).local.log, RunStarted) && AckServed(s.nonce, steps)
  {
    BeginHolds(s);
    HistoryKeeps(s, steps);
    AckWasServed(s, steps);
  }

  /** When it gives up without an acknowledgement the run has ended, and will not go on. */
  lemma {:induction false} UnacknowledgedFailureEnds(s: State, steps: seq<Step>, more: seq<Step>)
    requires IsBegin(s) && Possible(s, steps) && After(s, steps).cli == GaveUp(false) && Possible(After(s, steps), more)
    ensures var l := After(s, steps).local; IsTerminal(l.run.status) && After(After(s, steps), more).local == l
  {
    BeginHolds(s);
    HistoryKeeps(s, steps);
    EndedStays(After(s, steps), more);
  }

  lemma {:induction false} EndedStaysOneStep(s: State, step: Step)
    requires IsTerminal(s.local.run.status) && Enabled(s, step)
    ensures Next(s, step).local == s.local
  {
    match step
    case OfWorker(w) => EndedStaysForWorker(s, w);
    case _ =>
  }

  lemma {:induction false} EndedStaysForWorker(s: State, step: WorkerStep)
    requires IsTerminal(s.local.run.status) && WorkerEnabled(s, step)
    ensures WorkerNext(s, step).local == s.local
  {
  }

  lemma {:induction false} EndedStays(s: State, steps: seq<Step>)
    requires IsTerminal(s.local.run.status) && Possible(s, steps)
    ensures After(s, steps).local == s.local
    decreases |steps|
  {
    if steps != [] {
      EndedStaysOneStep(s, steps[0]);
      EndedStays(Next(s, steps[0]), steps[1..]);
    }
  }

  // Lost runs.

  /** A run that is lost before it started never starts, and a Worker that has spawned the target nevertheless signals it. */
  lemma {:induction false} LostBeforeStart(s: State, steps: seq<Step>, more: seq<Step>)
    requires IsBegin(s) && Possible(s, steps) && Possible(After(s, steps), more)
    requires var l := After(s, steps).local; Has(l.log, RunLost) && !Has(l.log, RunStarted)
    ensures var end := After(After(s, steps), more);
            && !Has(end.local.log, RunStarted) && !HasRunTarget(end.worker)
            && (end.refused ==> end.target.Signalled? || end.target.Gone?)
  {
    var lost := After(s, steps);
    BeginHolds(s);
    HistoryKeeps(s, steps);
    EndedStays(lost, more);
    HistoryKeeps(lost, more);
  }

  /** A Worker that cannot record the start of the target it has spawned signals the target at once. */
  lemma {:induction false} RefusedStartSignals(s: State, steps: seq<Step>, stamp: Stamp)
    requires IsBegin(s) && Possible(s, steps) && Enabled(After(s, steps), OfWorker(Announce(stamp)))
    ensures var at := After(s, steps); var next := Next(at, OfWorker(Announce(stamp)));
            if Appends(at.local, stamp) then next.worker.Supervising? && HasStarted(next)
            else next.refused && next.flags.cancel && (next.target.Signalled? || next.target.Gone?)
  {
    BeginHolds(s);
    HistoryKeeps(s, steps);
  }

  /**
   The command-line process marks a run as lost that has started exactly if the row says
   RUNNING when it does so; a run that had started is marked by nobody else.
   */
  lemma {:induction false} MarkedAfterStart(s: State, steps: seq<Step>, stamp: Stamp)
    requires IsBegin(s) && Possible(s, steps) && Enabled(After(s, steps), OfCli(MarkLost(stamp))) && Appends(After(s, steps).local, stamp)
    ensures var at := After(s, steps); var next := Next(at, OfCli(MarkLost(stamp)));
            && next.local.run.status == LOST
            && (Has(next.local.log, RunStarted) <==> at.local.run.status == RUNNING)
  {
    var at := After(s, steps);
    var next := Next(at, OfCli(MarkLost(stamp)));
    BeginHolds(s);
    HistoryKeeps(s, steps);
    StepKeeps(at, OfCli(MarkLost(stamp)));
    if HasStarted(at) { StartedIsRunning(at.local); }
  }

  lemma {:induction false} StartedIsRunning(l: Local)
    requires LogHolds(l) && !IsTerminal(l.run.status) && l.run.startedAt.Some?
    ensures l.run.status == RUNNING
  {
    var i :| 0 <= i < |l.log| && l.log[i].kind == RunStarted;
    assert Rank(RUNNING) <= Rank(l.run.status);
  }

  /** Something happens in a history. */
  ghost predicate Happens(s: State, steps: seq<Step>, what: (State, Step) -> bool)
    requires Possible(s, steps)
    decreases |steps|
  {
    steps != [] && (what(s, steps[0]) || Happens(Next(s, steps[0]), steps[1..], what))
  }

  /** The command-line process reads that its acknowledgement was taken. */
  predicate TakesReply(s: State, step: Step) {
    step == OfCli(ReadReply) && s.reply == Some(true)
  }

  /** It knows that, and cannot read the row of the run. */
  predicate LosesStore(s: State, step: Step) {
    step == OfCli(StoreFails) && s.cli == Polling(true)
  }

  predicate KnowsReply(cli: Cli) {
    cli == Polling(true) || cli.Succeeded? || cli == Failing(true) || cli == GaveUp(true) || cli.Killed?
  }

  lemma {:induction false} KnowsReplyStep(s: State, step: Step)
    requires Enabled(s, step)
    ensures TakesReply(s, step) ==> KnowsReply(Next(s, step).cli)
    ensures KnowsReply(s.cli) && !LosesStore(s, step) ==> KnowsReply(Next(s, step).cli)
  {
    if step.OfWorker? { CliStays(s, step.w); }
  }

  lemma CliStays(s: State, step: WorkerStep)
    requires WorkerEnabled(s, step)
    ensures WorkerNext(s, step).cli == s.cli
  {
  }

  lemma {:induction false} ReplyIsForgotten(s: State, steps: seq<Step>)
    requires Possible(s, steps) && KnowsReply(s.cli) && !KnowsReply(After(s, steps).cli)
    ensures Happens(s, steps, LosesStore)
    decreases |steps|
  {
    if steps != [] {
      KnowsReplyStep(s, steps[0]);
      if !LosesStore(s, steps[0]) { ReplyIsForgotten(Next(s, steps[0]), steps[1..]); }
    }
  }

  lemma {:induction false} ForgottenAfterReply(s: State, steps: seq<Step>)
    requires Possible(s, steps) && Happens(s, steps, TakesReply) && !KnowsReply(After(s, steps).cli)
    ensures Happens(s, steps, LosesStore)
    decreases |steps|
  {
    KnowsReplyStep(s, steps[0]);
    if TakesReply(s, steps[0]) {
      ReplyIsForgotten(Next(s, steps[0]), steps[1..]);
    } else {
      ForgottenAfterReply(Next(s, steps[0]), steps[1..]);
    }
  }

  /**
   A started run is marked as lost only by the command-line process; and if that has read
   that its acknowledgement was taken, only because the store has failed it since.
   */
  lemma {:induction false} LostAfterStartByWhom(s: State, steps: seq<Step>)
    requires IsBegin(s) && Possible(s, steps)
    requires var l := After(s, steps).local; Has(l.log, RunLost) && Has(l.log, RunStarted)
    ensures After(s, steps).cli == GaveUp(false) && AckServed(s.nonce, steps)
    ensures Happens(s, steps, TakesReply) ==> Happens(s, steps, LosesStore)
  {
    BeginHolds(s);
    HistoryKeeps(s, steps);
    AckWasServed(s, steps);
    if Happens(s, steps, TakesReply) { ForgottenAfterReply(s, steps); }
  }

  function Works(id: Uuid): Stamp {
    Stamp(true, 0, id)
  }

  /** One more step. */
  lemma {:induction false} OneMore(s: State, steps: seq<Step>, step: Step)
    requires Possible(s, steps) && Enabled(After(s, steps), step)
    ensures Possible(s, steps + [step]) && After(s, steps + [step]) == Next(After(s, steps), step)
    decreases |steps|
  {
    if steps == [] {
      assert steps + [step] == [step] && [step][1..] == [];
    } else {
      assert (steps + [step])[0] == steps[0] && (steps + [step])[1..] == steps[1..] + [step];
      OneMore(Next(s, steps[0]), steps[1..], step);
    }
  }

  /** The Worker is ready and the command-line process has sent its acknowledgement. */
  predicate AckIsSent(s: State) {
    && s.cli.AwaitingReply? && s.cli.item.status == STARTING && s.worker.Waiting? && s.inFlight && s.serving && s.target.NotSpawned?
    && s.local.run.status == STARTING && !s.flags.ack
  }

  lemma {:induction false} SendsAck(s: State) returns (steps: seq<Step>)
    requires IsBegin(s)
    ensures Possible(s, steps) && AckIsSent(After(s, steps)) && After(s, steps).nonce == s.nonce
  {
    steps := [];
    OneMore(s, steps, OfCli(Launch(true)));
    steps := steps + [OfCli(Launch(true))];
    OneMore(s, steps, OfWorker(Open(true)));
    steps := steps + [OfWorker(Open(true))];
    OneMore(s, steps, OfWorker(EmitStarting(Works(2))));
    steps := steps + [OfWorker(EmitStarting(Works(2)))];
    OneMore(s, steps, OfWorker(Prepare(true)));
    steps := steps + [OfWorker(Prepare(true))];
    OneMore(s, steps, OfCli(Look));
    steps := steps + [OfCli(Look)];
    OneMore(s, steps, OfCli(SendAck));
    steps := steps + [OfCli(SendAck)];
  }

  /** The acknowledgement was taken, and the command-line process is about to mark the run as lost. */
  predicate IsGivingUp(s: State) {
    s.cli.MarkingLost? && s.worker.Waiting? && s.flags.ack && s.target.NotSpawned? && s.local.run.status == STARTING
  }

  lemma {:induction false} LosesReply(s: State, sent: seq<Step>) returns (steps: seq<Step>)
    requires Possible(s, sent) && AckIsSent(After(s, sent))
    ensures Possible(s, steps) && IsGivingUp(After(s, steps))
  {
    var serve := Serve(HandoffAck(After(s, sent).nonce), Works(0), true);
    steps := sent;
    OneMore(s, steps, serve);
    steps := steps + [serve];
    OneMore(s, steps, OfCli(LoseReply));
    steps := steps + [OfCli(LoseReply)];
    OneMore(s, steps, OfCli(LookAgain));
    steps := steps + [OfCli(LookAgain)];
  }

  predicate TargetIsSupervised(s: State) {
    s.worker.Supervising? && s.target.Alive? && s.local.run.status == RUNNING
  }

  /** The Worker has spawned the target. */
  predicate TargetIsSpawned(s: State) {
    s.cli.MarkingLost? && s.worker.Recording? && s.target.Alive? && s.local.run.status == STARTING
  }

  lemma {:induction false} TargetSpawns(s: State, lost: seq<Step>) returns (steps: seq<Step>)
    requires Possible(s, lost) && IsGivingUp(After(s, lost))
    ensures Possible(s, steps) && TargetIsSpawned(After(s, steps)) && lost <= steps
  {
    steps := lost;
    OneMore(s, steps, OfWorker(WakeUp));
    steps := steps + [OfWorker(WakeUp)];
    OneMore(s, steps, OfWorker(Acknowledge(true)));
    steps := steps + [OfWorker(Acknowledge(true))];
    OneMore(s, steps, OfWorker(Spawn(true)));
    steps := steps + [OfWorker(Spawn(true))];
  }

  lemma {:induction false} TargetStarts(s: State, spawned: seq<Step>) returns (steps: seq<Step>)
    requires Possible(s, spawned) && TargetIsSpawned(After(s, spawned))
    ensures Possible(s, steps) && TargetIsSupervised(After(s, steps)) && After(s, steps).cli.MarkingLost? && spawned <= steps
  {
    steps := spawned;
    OneMore(s, steps, OfWorker(Record(true)));
    steps := steps + [OfWorker(Record(true))];
    OneMore(s, steps, OfWorker(Announce(Works(3))));
    steps := steps + [OfWorker(Announce(Works(3)))];
  }

  /** A lost run can have a live target that is supervised: when the reply to the acknowledgement was lost. */
  lemma {:induction false} LostWithLiveTarget(s: State) returns (steps: seq<Step>)
    requires IsBegin(s)
    ensures Possible(s, steps)
    ensures var end := After(s, steps); end.local.run.status == LOST && end.worker.Supervising? && end.target.Alive?
  {
    var sent := SendsAck(s);
    var lost := LosesReply(s, sent);
    var spawned := TargetSpawns(s, lost);
    var started := TargetStarts(s, spawned);
    OneMore(s, started, OfCli(MarkLost(Works(4))));
    steps := started + [OfCli(MarkLost(Works(4)))];
  }

  lemma {:induction false} HappensSnoc(s: State, steps: seq<Step>, step: Step, what: (State, Step) -> bool)
    requires Possible(s, steps) && Enabled(After(s, steps), step)
    ensures Possible(s, steps + [step])
    ensures Happens(s, steps + [step], what) <==> Happens(s, steps, what) || what(After(s, steps), step)
    decreases |steps|
  {
    OneMore(s, steps, step);
    if steps == [] {
      assert steps + [step] == [step] && [step][1..] == [];
    } else {
      assert (steps + [step])[0] == steps[0] && (steps + [step])[1..] == steps[1..] + [step];
      HappensSnoc(Next(s, steps[0]), steps[1..], step, what);
    }
  }

  lemma {:induction false} HappensLonger(s: State, steps: seq<Step>, longer: seq<Step>, what: (State, Step) -> bool)
    requires Possible(s, steps) && Possible(s, longer) && steps <= longer && Happens(s, steps, what)
    ensures Happens(s, longer, what)
    decreases |steps|
  {
    assert longer[0] == steps[0] && steps[1..] <= longer[1..];
    if !what(s, steps[0]) { HappensLonger(Next(s, steps[0]), steps[1..], longer[1..], what); }
  }

  /** The acknowledgement was taken and the command-line process knows it, but cannot read the row of the run. */
  lemma {:induction false} ForgetsReply(s: State, sent: seq<Step>) returns (steps: seq<Step>)
    requires Possible(s, sent) && AckIsSent(After(s, sent))
    ensures Possible(s, steps) && IsGivingUp(After(s, steps)) && Happens(s, steps, TakesReply)
  {
    var serve := Serve(HandoffAck(After(s, sent).nonce), Works(0), true);
    steps := sent;
    OneMore(s, steps, serve);
    steps := steps + [serve];
    OneMore(s, steps, OfCli(ReadReply));
    HappensSnoc(s, steps, OfCli(ReadReply), TakesReply);
    steps := FailsToLook(s, steps + [OfCli(ReadReply)]);
  }

  lemma {:induction false} FailsToLook(s: State, read: seq<Step>) returns (steps: seq<Step>)
    requires Possible(s, read) && Happens(s, read, TakesReply)
    requires var at := After(s, read);
             at.cli == Polling(true) && at.worker.Waiting? && at.flags.ack && at.target.NotSpawned? && at.local.run.status == STARTING
    ensures Possible(s, steps) && IsGivingUp(After(s, steps)) && Happens(s, steps, TakesReply)
  {
    steps := read;
    OneMore(s, steps, OfCli(StoreFails));
    steps := steps + [OfCli(StoreFails)];
    OneMore(s, steps, OfCli(LookAgain));
    steps := steps + [OfCli(LookAgain)];
    HappensLonger(s, read, steps, TakesReply);
  }

  /** It can also happen to a command that has read that its acknowledgement was taken. */
  lemma {:induction false} LostAfterReply(s: State) returns (steps: seq<Step>)
    requires IsBegin(s)
    ensures Possible(s, steps) && Happens(s, steps, TakesReply)
    ensures var end := After(s, steps); end.local.run.status == LOST && end.worker.Supervising? && end.target.Alive?
  {
    var sent := SendsAck(s);
    var forgotten := ForgetsReply(s, sent);
    var spawned := TargetSpawns(s, forgotten);
    var started := TargetStarts(s, spawned);
    OneMore(s, started, OfCli(MarkLost(Works(4))));
    steps := started + [OfCli(MarkLost(Works(4)))];
    HappensLonger(s, forgotten, steps, TakesReply);
  }

  // Ends.

  /** The Worker does not die, and its last word can be written. */
  predicate Faultless(step: Step) {
    match step
    case OfWorker(Die) => false
    case OfWorker(EmitFailure(stamp)) => stamp.works
    case _ => true
  }

  predicate AllFaultless(steps: seq<Step>) {
    forall i :: 0 <= i < |steps| ==> Faultless(steps[i])
  }

  /** A Worker that is done has ended the run. */
  predicate EndHolds(s: State) {
    !s.worker.Died? && (s.worker.Closing? || s.worker.Closed? ==> IsTerminal(s.local.run.status))
  }

  lemma {:induction false} EndStep(s: State, step: Step)
    requires WorkerHolds(s) && EndHolds(s) && Enabled(s, step) && Faultless(step)
    ensures EndHolds(Next(s, step))
  {
    if IsTerminal(s.local.run.status) {
      EndedStaysOneStep(s, step);
    } else if step.OfWorker? {
      EndWorkerStep(s, step.w);
    }
  }

  lemma {:induction false} EndFailureStep(s: State, step: WorkerStep)
    requires EndHolds(s) && WorkerEnabled(s, step) && step.EmitFailure? && step.stamp.works
    ensures EndHolds(Finish(s, step))
  {
  }

  lemma {:induction false} EndWorkerStep(s: State, step: WorkerStep)
    requires WorkerHolds(s) && EndHolds(s) && WorkerEnabled(s, step) && Faultless(OfWorker(step))
    ensures EndHolds(WorkerNext(s, step))
  {
    match step
    case EmitFailure(_) => EndFailureStep(s, step);
    case _ =>
  }

  lemma {:induction false} EndHistory(s: State, steps: seq<Step>)
    requires Invariant(s) && EndHolds(s) && Possible(s, steps) && AllFaultless(steps)
    ensures EndHolds(After(s, steps))
    decreases |steps|
  {
    if steps != [] {
      StepKeeps(s, steps[0]);
      EndStep(s, steps[0]);
      assert forall i :: 0 <= i < |steps[1..]| ==> steps[1..][i] == steps[i + 1];
      EndHistory(Next(s, steps[0]), steps[1..]);
    }
  }

  /** A Worker that has not crashed leaves, when it is done, a run that has ended. */
  lemma {:induction false} WorkerLeavesEnd(s: State, steps: seq<Step>)
    requires IsBegin(s) && Possible(s, steps) && AllFaultless(steps) && After(s, steps).worker.Closed?
    ensures var end := After(s, steps); EndsAtMostOnce(end.local) && HasEnd(end.local.log)
  {
    BeginHolds(s);
    HistoryKeeps(s, steps);
    EndHistory(s, steps);
    EndIsLast(After(s, steps).local);
  }

  // Explicit progress.

  /** A request to the socket, and what the store does with an event of it. */
  datatype Call = Call(request: Request, stamp: Stamp)

  /** The handler after some requests, one after the other. */
  function AfterCalls(l: Local, f: Flags, nonce: string, calls: seq<Call>): Served {
    if calls == [] then Served(true, f, l)
    else
      var n := |calls| - 1;
      var before := AfterCalls(l, f, nonce, calls[..n]);
      Handled(before.local, before.flags, nonce, calls[n].request, calls[n].stamp)
  }

  /** The explicit progress that the Worker remembers after the first `i` requests. */
  function Remembered(l: Local, f: Flags, nonce: string, calls: seq<Call>, i: nat): real
    requires i <= |calls|
  {
    AfterCalls(l, f, nonce, calls[..i]).flags.lastExplicit
  }

  /** A request that is not refused as stale, with a total below what has been reported before. */
  predicate Undercuts(request: Request, last: real) {
    request.ReportProgress? && request.total > 0.0 && request.current >= last && request.total < last
  }

  predicate NeverFalls(l: Local, f: Flags, nonce: string, calls: seq<Call>) {
    forall i, j :: 0 <= i <= j <= |calls| ==> Remembered(l, f, nonce, calls, i) <= Remembered(l, f, nonce, calls, j)
  }

  predicate NoneUndercuts(l: Local, f: Flags, nonce: string, calls: seq<Call>) {
    forall i :: 0 <= i < |calls| ==> !Undercuts(calls[i].request, Remembered(l, f, nonce, calls, i))
  }

  lemma {:induction false} OneCall(l: Local, f: Flags, nonce: string, calls: seq<Call>, i: nat)
    requires i < |calls|
    ensures Remembered(l, f, nonce, calls, i + 1) < Remembered(l, f, nonce, calls, i)
            <==> Undercuts(calls[i].request, Remembered(l, f, nonce, calls, i))
  {
    assert calls[..i + 1][..i] == calls[..i];
  }

  lemma {:induction false} RememberedRises(l: Local, f: Flags, nonce: string, calls: seq<Call>, i: nat, j: nat)
    requires i <= j <= |calls| && NoneUndercuts(l, f, nonce, calls)
    ensures Remembered(l, f, nonce, calls, i) <= Remembered(l, f, nonce, calls, j)
    decreases j
  {
    if i < j {
      RememberedRises(l, f, nonce, calls, i, j - 1);
      OneCall(l, f, nonce, calls, j - 1);
    }
  }

  /**
   Over any requests to the socket, the remembered progress never falls if and only if no
   request that is not stale has a total below it: the check comes before the value is cut.
   */
  lemma {:induction false} ExplicitProgressAdvances(l: Local, f: Flags, nonce: string, calls: seq<Call>)
    ensures NeverFalls(l, f, nonce, calls) <==> NoneUndercuts(l, f, nonce, calls)
  {
    if NoneUndercuts(l, f, nonce, calls) {
      forall i, j | 0 <= i <= j <= |calls| ensures Remembered(l, f, nonce, calls, i) <= Remembered(l, f, nonce, calls, j) {
        RememberedRises(l, f, nonce, calls, i, j);
      }
    } else {
      var i :| 0 <= i < |calls| && Undercuts(calls[i].request, Remembered(l, f, nonce, calls, i));
      OneCall(l, f, nonce, calls, i);
    }
  }

  /** Ten of twenty, then ten of five: it falls. */
  lemma {:induction false} ExplicitProgressFalls(l: Local, nonce: string, stamp: Stamp)
    ensures var calls := [Call(ReportProgress(10.0, 20.0, "", None, None), stamp), Call(ReportProgress(10.0, 5.0, "", None, None), stamp)];
            !NeverFalls(l, Flags(false, false, -1.0), nonce, calls)
  {
    var f := Flags(false, false, -1.0);
    var calls := [Call(ReportProgress(10.0, 20.0, "", None, None), stamp), Call(ReportProgress(10.0, 5.0, "", None, None), stamp)];
    var first := calls[..1];
    assert |first| == 1 && first[0] == calls[0] && first[..0] == [];
    assert AfterCalls(l, f, nonce, first[..0]) == Served(true, f, l);
    assert AfterCalls(l, f, nonce, first) == Handled(l, f, nonce, calls[0].request, stamp);
    assert Remembered(l, f, nonce, calls, 1) == Adapters.Clamped(10.0, 20.0) == 10.0;
    OneCall(l, f, nonce, calls, 1);
  }

  // The pipeline.

  /** The store of many runs has the row and the log of this one; only the registration flag is its own. */
  predicate Stores(store: Store, l: Local) {
    && l.run.id in store.runs
    && store.runs[l.run.id].(remoteInitialized := l.run.remoteInitialized) == l.run
    && Log(store, l.run.id) == l.log
  }

  /** Appending to the store is appending to the log of the run. */
  lemma {:induction false} StoreFollows(store: Store, l: Local, kind: EventType, payload: Payload, at: int, id: Uuid)
    requires Stores(store, l)
    ensures Stores(Appended(store, l.run.id, kind, payload, at, id), Extended(l, kind, payload, at, id))
  {
    var next := Appended(store, l.run.id, kind, payload, at, id);
    var e := NewEvent(l, kind, payload, at, id);
    assert EventsOf(next.rows) == EventsOf(store.rows) + [e];
    assert (EventsOf(store.rows) + [e])[..|EventsOf(store.rows)|] == EventsOf(store.rows);
  }

  /** When nothing of a handed-over run is left to deliver, the server agrees with the machine about it. */
  lemma {:induction false} HandedOverRunConverges(s: State, steps: seq<Step>, c: Pipeline.Config, sent: seq<Pipeline.Step>)
    requires IsBegin(s) && Possible(s, steps) && Pipeline.Possible(c, Pipeline.START, sent)
    requires var p := Pipeline.After(c, Pipeline.START, sent); var l := After(s, steps).local;
             Stores(p.store, l) && PipelineTheorems.AllDelivered(p.store, l.run.id)
    ensures var p := Pipeline.After(c, Pipeline.START, sent); var l := After(s, steps).local;
            && Pipeline.AcceptedOf(p.server, l.run.id) == l.log
            && l.run.id in p.server.runs && Agree(p.server.runs[l.run.id], l.run)
  {
    LogIsWellShaped(s, steps);
    PipelineTheorems.Convergence(c, sent, After(s, steps).local.run.id);
  }
}
