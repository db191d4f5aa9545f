/** The server has a prefix of each log, also when requests may arrive after the client has given up on them. */
module PipelineLatePrefix {
  import opened Wrappers
  import opened Events
  import opened Ingest
  import opened Queue
  import opened Pipeline
  import opened PipelineInvariant
  import opened PipelineSteps
  import opened PipelineTheorems
  import opened PipelinePrefix
  import opened PipelineLate

  /** Every drain of a history starts with `retry_all_pending_now`. */
  predicate LateRetriesAll(steps: seq<LateStep>) {
    forall i :: 0 <= i < |steps| && steps[i].Ordinary? && steps[i].step.StartDrain? ==> steps[i].step.retryAll
  }

  predicate LostSkipsNothing(s: System, request: Request) {
    request.EventsRequest? ==>
      SkipsNothing(request.group.batch, AcceptedOf(s.server, request.group.runId), Log(s.store, request.group.runId))
  }

  predicate LostSkipNothing(s: System, lost: seq<Request>) {
    forall i :: 0 <= i < |lost| ==> LostSkipsNothing(s, lost[i])
  }

  lemma {:induction false} LostStay(c: Config, s: System, t: System, lost: seq<Request>)
    requires Invariant(c, s) && Invariant(c, t) && Grows(s, t) && RequestsHold(s, lost) && LostSkipNothing(s, lost)
    ensures LostSkipNothing(t, lost)
  {
    forall i | 0 <= i < |lost| ensures LostSkipsNothing(t, lost[i]) {
      assert RequestHolds(s, lost[i]) && LostSkipsNothing(s, lost[i]);
      if lost[i].EventsRequest? { GroupsStayWhole(c, s, t, lost[i].group); }
    }
  }

  /** What the client gives up on skips nothing, as the groups of the drainer do not. */
  lemma {:induction false} GivenUpSkipsNothing(s: System, step: Step)
    requires GroupsSkipNothing(s) && (step.Put? ==> AtStage(s, Begin)) && (step.Upload? ==> AtStage(s, Registered))
    ensures LostSkipNothing(s, GivenUp(s, step))
  {
  }

  lemma {:induction false} OrdinaryInOrder(c: Config, b: System, step: Step, lost: seq<Request>)
    requires Invariant(c, b) && OrderInvariant(c, b) && RequestsHold(b, lost) && LostSkipNothing(b, lost)
    requires Enabled(c, b, step) && (step.StartDrain? ==> step.retryAll)
    ensures OrderInvariant(c, Next(c, b, step)) && LostSkipNothing(Next(c, b, step), lost + GivenUp(b, step))
  {
    var t := Next(c, b, step);
    StepKeeps(c, b, step);
    OrderStep(c, b, step);
    GivenUpHolds(c, b, step);
    GivenUpSkipsNothing(b, step);
    LostStay(c, b, t, lost);
    LostStay(c, b, t, GivenUp(b, step));
  }

  /** A change of the server alone that leaves the accepted events closed. */
  lemma {:induction false} ServerInOrder(c: Config, b: System, u: System)
    requires Invariant(c, b) && OrderInvariant(c, b) && Invariant(c, u) && Grows(b, u)
    requires u.store == b.store && u.drainer == b.drainer && AcceptedClosed(u)
    ensures OrderInvariant(c, u)
  {
    if b.drainer.Flushing? { GroupsStayAll(c, b, u); }
  }

  lemma {:induction false} ArrivedInOrder(c: Config, b: System, request: Request, at: int)
    requires Invariant(c, b) && AcceptedClosed(b) && RequestHolds(b, request) && LostSkipsNothing(b, request)
    requires var u := b.(server := ShadowArrived(c, b.server, request, at)); Invariant(c, u) && Grows(b, u)
    ensures AcceptedClosed(b.(server := ShadowArrived(c, b.server, request, at)))
  {
    var u := b.(server := ShadowArrived(c, b.server, request, at));
    if request.EventsRequest? && Accepts(b.server, request.group.runId, request.group.batch) {
      UploadKeepsClosed(c, b, u, request.group);
    } else {
      ClosedUnlessUploaded(c, b, u);
    }
  }

  lemma {:induction false} ArrivesInOrder(c: Config, s: LateSystem, b: System, i: nat, at: int)
    requires Shadows(c, s, b) && OrderInvariant(c, b) && LostSkipNothing(b, s.lost) && LateEnabled(c, s, Arrives(i, at))
    ensures var u := ShadowNext(c, s, b, Arrives(i, at)); OrderInvariant(c, u) && LostSkipNothing(u, s.lost)
  {
    var u := ShadowNext(c, s, b, Arrives(i, at));
    assert RequestHolds(b, s.lost[i]) && LostSkipsNothing(b, s.lost[i]);
    ArrivedKeeps(c, s.now.server, b, s.lost[i], at);
    ArrivedInOrder(c, b, s.lost[i], at);
    ServerInOrder(c, b, u);
    LostStay(c, b, u, s.lost);
  }

  lemma {:induction false} StepInOrder(c: Config, s: LateSystem, b: System, step: LateStep)
    requires Shadows(c, s, b) && OrderInvariant(c, b) && LostSkipNothing(b, s.lost) && LateEnabled(c, s, step)
    requires step.Ordinary? && step.step.StartDrain? ==> step.step.retryAll
    ensures var u := ShadowNext(c, s, b, step); OrderInvariant(c, u) && LostSkipNothing(u, LateNext(c, s, step).lost)
  {
    match step
    case Ordinary(o) =>
      OrdinaryAlike(c, s.now, b, o);
      OrdinaryInOrder(c, b, o, s.lost);
    case Arrives(i, at) => ArrivesInOrder(c, s, b, i, at);
  }

  ghost predicate InOrder(c: Config, s: LateSystem, b: System) {
    Shadows(c, s, b) && OrderInvariant(c, b) && LostSkipNothing(b, s.lost)
  }

  lemma {:induction false} InOrderStep(c: Config, s: LateSystem, b: System, step: LateStep)
    requires InOrder(c, s, b) && LateEnabled(c, s, step) && LateRetriesAll([step])
    ensures InOrder(c, LateNext(c, s, step), ShadowNext(c, s, b, step))
  {
    assert [step][0] == step;
    StepShadows(c, s, b, step);
    StepInOrder(c, s, b, step);
  }

  lemma RetriesInParts(steps: seq<LateStep>)
    requires LateRetriesAll(steps) && steps != []
    ensures LateRetriesAll([steps[0]]) && LateRetriesAll(steps[1..])
  {
    assert forall i :: 0 <= i < |steps[1..]| ==> steps[1..][i] == steps[i + 1];
  }

  lemma {:induction false} HistoryInOrder(c: Config, s: LateSystem, b: System, steps: seq<LateStep>) returns (u: System)
    requires InOrder(c, s, b) && LatePossible(c, s, steps) && LateRetriesAll(steps)
    ensures InOrder(c, LateAfter(c, s, steps), u)
    decreases |steps|
  {
    if steps == [] {
      u := b;
    } else {
      RetriesInParts(steps);
      InOrderStep(c, s, b, steps[0]);
      u := HistoryInOrder(c, LateNext(c, s, steps[0]), ShadowNext(c, s, b, steps[0]), steps[1..]);
    }
  }

  /**
   If every drain starts by retrying everything, the server always has a prefix of each
   log, whatever arrives late and however often: a batch that was given up on starts at the
   first event that was not delivered, and what has been accepted since only makes it known.
   */
  lemma {:induction false} PrefixDespiteLateRequests(c: Config, steps: seq<LateStep>, runId: Uuid)
    requires LatePossible(c, LATE_START, steps) && LateRetriesAll(steps)
    ensures var s := LateAfter(c, LATE_START, steps).now; AcceptedOf(s.server, runId) <= Log(s.store, runId)
  {
    StartInvariant(c);
    var u := HistoryInOrder(c, LATE_START, START, steps);
    if runId in u.store.runs {
      assert RunInvariant(u.store, runId);
      AcceptedIsSubLog(c, u, runId);
      ClosedIsPrefix(AcceptedOf(u.server, runId), Log(u.store, runId));
    } else {
      NoEventsOfUnknown(c, u, runId);
    }
  }
}
