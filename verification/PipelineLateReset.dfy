/**
 A history in which a late registration resets the attention status: the first PUT is
 lost on the way and its row backs off, an event that asks for attention is logged and
 uploaded after a second PUT, and then the first one arrives.
 */
module PipelineLateReset {
  import opened Wrappers
  import opened Events
  import opened Ingest
  import opened Queue
  import opened Pipeline
  import opened PipelineOvertaking
  import opened PipelineLate

  const ASKING := EMPTY_PAYLOAD.(attention := Present(Some(ACTION_REQUIRED)))
  const ASK := Event(12, 1, "machine", 2, RunAttentionRequired, 0, ASKING)
  const ASKED_RUN := LocalApply(CREATED_RUN, ASK)
  const NOTHING := Server(map[], [])

  /** The store after the first PUT has failed, after the second event, and after the second PUT. */
  const BACKED_OFF := Store(map[1 := CREATED_RUN], [Row(FIRST, false, 1, 1)])
  const ASKED := Store(map[1 := ASKED_RUN], [Row(FIRST, false, 1, 1), Row(ASK, false, 0, 0)])
  const ASKED_KNOWN := Store(map[1 := ASKED_RUN.(remoteInitialized := true)], [Row(FIRST, false, 1, 1), Row(ASK, false, 0, 0)])
  const SHOWN := Server(map[1 := Apply(NewRun(CREATED_RUN, "workspace", 0), ASK)], [ASK])
  const RESET := Server(map[1 := Apply(NewRun(CREATED_RUN, "workspace", 0), ASK).(attention := NONE)], [ASK])

  const LOST_PUT := [RunRequest(CREATED_RUN)]

  /** The history is possible and ends here, with the first PUT still on its way. */
  ghost predicate Reaches(steps: seq<LateStep>, store: Store, server: Server, drainer: Drainer) {
    LatePossible(CONFIG, LATE_START, steps)
    && LateAfter(CONFIG, LATE_START, steps) == LateSystem(System(store, server, drainer), LOST_PUT)
  }

  lemma {:induction false} Longer(s: LateSystem, steps: seq<LateStep>, step: LateStep)
    requires LatePossible(CONFIG, s, steps) && LateEnabled(CONFIG, LateAfter(CONFIG, s, steps), step)
    ensures LatePossible(CONFIG, s, steps + [step])
    ensures LateAfter(CONFIG, s, steps + [step]) == LateNext(CONFIG, LateAfter(CONFIG, s, steps), step)
    decreases |steps|
  {
    if steps == [] {
      assert steps + [step] == [step] && [step][1..] == [];
    } else {
      assert (steps + [step])[0] == steps[0] && (steps + [step])[1..] == steps[1..] + [step];
      Longer(LateNext(CONFIG, s, steps[0]), steps[1..], step);
    }
  }

  /** One ordinary step more, if it is no request that gets lost. */
  lemma {:induction false} OneMore(steps: seq<LateStep>, at: System, step: Step, next: System) returns (more: seq<LateStep>)
    requires Reaches(steps, at.store, at.server, at.drainer)
    requires Enabled(CONFIG, at, step) && Next(CONFIG, at, step) == next && GivenUp(at, step) == []
    ensures Reaches(more, next.store, next.server, next.drainer)
  {
    Longer(LATE_START, steps, Ordinary(step));
    more := steps + [Ordinary(step)];
  }

  lemma {:induction false} FirstIsFlushing() returns (steps: seq<LateStep>)
    ensures LatePossible(CONFIG, LATE_START, steps)
    ensures LateAfter(CONFIG, LATE_START, steps) == LateSystem(System(LOGGED, NOTHING, Flush(FIRST, Begin)), [])
  {
    FirstIsLogged();
    FirstIsFetched();
    steps := [];
    Longer(LATE_START, steps, Ordinary(CREATE));
    steps := steps + [Ordinary(CREATE)];
    Longer(LATE_START, steps, Ordinary(StartDrain(false, None)));
    steps := steps + [Ordinary(StartDrain(false, None))];
    Longer(LATE_START, steps, Ordinary(Fetch(0)));
    steps := steps + [Ordinary(Fetch(0))];
  }

  lemma {:induction false} PutIsLost() returns (steps: seq<LateStep>)
    ensures Reaches(steps, LOGGED, NOTHING, Flush(FIRST, Failed))
  {
    steps := FirstIsFlushing();
    Longer(LATE_START, steps, Ordinary(Put(NotApplied, 0)));
    steps := steps + [Ordinary(Put(NotApplied, 0))];
  }

  lemma FirstBacksOff()
    ensures FailedRows(LOGGED, [FIRST], 1) == BACKED_OFF && MostAttempts(LOGGED.rows, 1) == 0 && Backoff(0) == 1
  {
    assert LOGGED.rows[..0] == [];
    assert [FIRST][0].id == FIRST.id;
    assert HasEventId([FIRST], FIRST.id);
  }

  lemma {:induction false} FirstIsWaiting() returns (steps: seq<LateStep>)
    ensures Reaches(steps, BACKED_OFF, NOTHING, Idle)
  {
    FirstBacksOff();
    var lost := PutIsLost();
    var done := System(BACKED_OFF, NOTHING, Flushing([], Begin, 0, None));
    assert NextGroup(Flush(FIRST, Failed), 0) == Flushing([], Begin, 0, None);
    var marked := OneMore(lost, System(LOGGED, NOTHING, Flush(FIRST, Failed)), Step.MarkFailed(0), done);
    steps := OneMore(marked, done, EndFlush, System(BACKED_OFF, NOTHING, Idle));
  }

  lemma AskIsLogged()
    ensures Enabled(CONFIG, System(BACKED_OFF, NOTHING, Idle), Append(1, RunAttentionRequired, ASKING, 0, 12))
    ensures Next(CONFIG, System(BACKED_OFF, NOTHING, Idle), Append(1, RunAttentionRequired, ASKING, 0, 12))
            == System(ASKED, NOTHING, Idle)
  {
    assert EventsOf(BACKED_OFF.rows) == [FIRST];
    OfAll([FIRST], 1);
    assert [FIRST][..0] == [];
    assert NextSeq([FIRST]) == 2;
  }

  lemma {:induction false} AskIsWaiting() returns (steps: seq<LateStep>)
    ensures Reaches(steps, ASKED, NOTHING, Idle)
  {
    AskIsLogged();
    var waiting := FirstIsWaiting();
    steps := OneMore(waiting, System(BACKED_OFF, NOTHING, Idle), Append(1, RunAttentionRequired, ASKING, 0, 12),
                     System(ASKED, NOTHING, Idle));
  }

  lemma AskIsFetched()
    ensures Next(CONFIG, System(ASKED, NOTHING, Fetching(None)), Fetch(0)) == System(ASKED, NOTHING, Flush(ASK, Begin))
  {
    assert ASKED.rows[..1] == [Row(FIRST, false, 1, 1)];
    assert ASKED.rows[..1][..0] == [];
    assert DueEvents(ASKED.rows[..1], 0) == [];
    assert DueEvents(ASKED.rows, 0) == [] + [ASK];
    OneDue(ASK, ASKED);
  }

  lemma AskIsAccepted()
    ensures Accepts(REGISTERED, 1, [ASK]) && Uploaded(REGISTERED, 1, [ASK]) == SHOWN
  {
    var l := LedgerOf(REGISTERED, 1);
    OneSorted(ASK);
    assert Judge(l, ASK) == Accept;
    OneIngested(Ingest.Start(l), ASK);
    assert [] + [ASK] == [ASK];
  }

  lemma {:induction false} AskIsFlushing() returns (steps: seq<LateStep>)
    ensures Reaches(steps, ASKED, NOTHING, Flush(ASK, Begin))
  {
    AskIsFetched();
    var waiting := AskIsWaiting();
    var started := OneMore(waiting, System(ASKED, NOTHING, Idle), StartDrain(false, None), System(ASKED, NOTHING, Fetching(None)));
    steps := OneMore(started, System(ASKED, NOTHING, Fetching(None)), Fetch(0), System(ASKED, NOTHING, Flush(ASK, Begin)));
  }

  lemma {:induction false} AskIsRegistered() returns (steps: seq<LateStep>)
    ensures Reaches(steps, ASKED_KNOWN, REGISTERED, Flush(ASK, Registered))
  {
    var flushing := AskIsFlushing();
    assert NewRun(ASKED_RUN, "workspace", 0) == NewRun(CREATED_RUN, "workspace", 0);
    var put := OneMore(flushing, System(ASKED, NOTHING, Flush(ASK, Begin)), Put(Applied, 0),
                       System(ASKED, REGISTERED, Flush(ASK, PutAnswered)));
    steps := OneMore(put, System(ASKED, REGISTERED, Flush(ASK, PutAnswered)), Step.MarkInitialized,
                     System(ASKED_KNOWN, REGISTERED, Flush(ASK, Registered)));
  }

  lemma {:induction false} AskIsShown() returns (steps: seq<LateStep>)
    ensures Reaches(steps, ASKED_KNOWN, SHOWN, Flush(ASK, UploadAnswered))
  {
    AskIsAccepted();
    var registered := AskIsRegistered();
    steps := OneMore(registered, System(ASKED_KNOWN, REGISTERED, Flush(ASK, Registered)), Upload(Applied),
                     System(ASKED_KNOWN, SHOWN, Flush(ASK, UploadAnswered)));
  }

  lemma PutArrives()
    ensures var shown := LateSystem(System(ASKED_KNOWN, SHOWN, Flush(ASK, UploadAnswered)), LOST_PUT);
            && LateEnabled(CONFIG, shown, Arrives(0, 0))
            && LateNext(CONFIG, shown, Arrives(0, 0)) == LateSystem(System(ASKED_KNOWN, RESET, Flush(ASK, UploadAnswered)), LOST_PUT)
  {
  }

  /** The server has accepted an event that asks for attention, and its row does not: the first PUT arrived after it. */
  lemma {:induction false} LateRegistrationResets() returns (steps: seq<LateStep>)
    ensures LatePossible(CONFIG, LATE_START, steps)
    ensures var s := LateAfter(CONFIG, LATE_START, steps).now;
            && 1 in s.server.runs && 1 in s.store.runs && AcceptedOf(s.server, 1) == [ASK]
            && s.server.runs[1].attention == NONE
            && forall at :: Project(NewRun(s.store.runs[1], CONFIG.workspaceId, at), AcceptedOf(s.server, 1)).attention == ACTION_REQUIRED
  {
    var shown := AskIsShown();
    PutArrives();
    Longer(LATE_START, shown, Arrives(0, 0));
    steps := shown + [Arrives(0, 0)];
    OfAll([ASK], 1);
    forall at ensures Project(NewRun(ASKED_KNOWN.runs[1], CONFIG.workspaceId, at), [ASK]).attention == ACTION_REQUIRED {
      assert [ASK][..0] == [];
    }
  }
}
