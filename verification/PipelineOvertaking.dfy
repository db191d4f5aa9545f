/**
 A history of the background loop in which a later event overtakes an earlier one:
 the upload of the first event fails and its row backs off, then a second event is
 logged, whose row is due at once, and uploaded alone.
 */
module PipelineOvertaking {
  import opened Wrappers
  import opened Events
  import opened Ingest
  import opened Queue
  import opened Pipeline
  import opened PipelineOrder

  const CONFIG := Config(20, "workspace")
  const NEW := NewLocalRun(1, "machine", "title", "cli", Automatic, 0)
  const FIRST := Event(11, 1, "machine", 1, RunCreated, 0, EMPTY_PAYLOAD)
  const SECOND := Event(12, 1, "machine", 2, RunStarted, 0, EMPTY_PAYLOAD)
  const CREATED_RUN := LocalApply(NEW, FIRST)
  const KNOWN_RUN := CREATED_RUN.(remoteInitialized := true)
  const REGISTERED := Server(map[1 := NewRun(CREATED_RUN, "workspace", 0)], [])

  const ACCEPTED := Server(map[1 := Apply(NewRun(CREATED_RUN, "workspace", 0), SECOND)], [SECOND])

  /** The store before and after the first upload fails, and after the second append. */
  const LOGGED := Store(map[1 := CREATED_RUN], [Row(FIRST, false, 0, 0)])
  const KNOWN := Store(map[1 := KNOWN_RUN], [Row(FIRST, false, 0, 0)])
  const WAITING := Store(map[1 := KNOWN_RUN], [Row(FIRST, false, 1, 1)])
  const BOTH := Store(map[1 := LocalApply(KNOWN_RUN, SECOND)], [Row(FIRST, false, 1, 1), Row(SECOND, false, 0, 0)])

  const REGISTER := [StartDrain(false, None), Fetch(0), Put(Applied, 0), Step.MarkInitialized]
  const FAIL := [Upload(NotApplied), Step.MarkFailed(0), EndFlush]
  const SECOND_DRAIN := [StartDrain(false, None), Fetch(0), SkipPut, Upload(Applied)]
  const CREATE := Step.CreateRun(NEW, EMPTY_PAYLOAD, 11)
  const APPEND := Append(1, RunStarted, EMPTY_PAYLOAD, 0, 12)

  function Flush(e: Event, stage: Stage): Drainer {
    Flushing([Group(1, [e])], stage, 0, None)
  }

  /** One step in front of a history. */
  lemma Before(s: System, step: Step, t: System, rest: seq<Step>)
    requires Enabled(CONFIG, s, step) && Next(CONFIG, s, step) == t && Possible(CONFIG, t, rest)
    ensures Possible(CONFIG, s, [step] + rest) && After(CONFIG, s, [step] + rest) == After(CONFIG, t, rest)
  {
    assert ([step] + rest)[1..] == rest;
  }

  lemma FirstIsLogged()
    ensures Enabled(CONFIG, START, CREATE) && Next(CONFIG, START, CREATE) == System(LOGGED, Server(map[], []), Idle)
  {
    assert EventsOf([]) == [];
    var base := START.store.(runs := map[1 := NEW]);
    assert Log(base, 1) == [];
    assert [] + [Row(FIRST, false, 0, 0)] == [Row(FIRST, false, 0, 0)];
  }

  lemma OneDue(e: Event, store: Store)
    requires DueEvents(store.rows, 0) == [e] && e.runId == 1
    ensures Grouped(Pending(store, 20, 0)) == [Group(1, [e])]
  {
    assert OrderedByRun([e]) == [e] by { assert [e][..0] == []; assert Inserted([], e) == [e]; }
    assert Grouped([e]) == [Group(1, [e])] by { assert [e][..0] == []; }
  }

  lemma FirstIsFetched()
    ensures Next(CONFIG, System(LOGGED, Server(map[], []), Fetching(None)), Fetch(0))
            == System(LOGGED, Server(map[], []), Flush(FIRST, Begin))
  {
    assert LOGGED.rows[..0] == [];
    assert DueEvents(LOGGED.rows, 0) == [FIRST];
    OneDue(FIRST, LOGGED);
  }

  lemma FirstFails()
    ensures FailedRows(KNOWN, [FIRST], 1) == WAITING && MostAttempts(KNOWN.rows, 1) == 0 && Backoff(0) == 1
  {
    assert KNOWN.rows[..0] == [];
    assert [FIRST][0].id == FIRST.id;
    assert HasEventId([FIRST], FIRST.id);
  }

  lemma FirstUploadFails(rest: seq<Step>)
    requires Possible(CONFIG, System(WAITING, REGISTERED, Idle), rest)
    ensures Possible(CONFIG, System(KNOWN, REGISTERED, Flush(FIRST, Registered)), FAIL + rest)
    ensures After(CONFIG, System(KNOWN, REGISTERED, Flush(FIRST, Registered)), FAIL + rest)
            == After(CONFIG, System(WAITING, REGISTERED, Idle), rest)
  {
    FirstFails();
    var r2 := [EndFlush] + rest;
    Before(System(WAITING, REGISTERED, Flushing([], Begin, 0, None)), EndFlush, System(WAITING, REGISTERED, Idle), rest);
    var r1 := [Step.MarkFailed(0)] + r2;
    assert NextGroup(Flush(FIRST, Failed), 0) == Flushing([], Begin, 0, None);
    Before(System(KNOWN, REGISTERED, Flush(FIRST, Failed)), Step.MarkFailed(0), System(WAITING, REGISTERED, Flushing([], Begin, 0, None)), r2);
    Before(System(KNOWN, REGISTERED, Flush(FIRST, Registered)), Upload(NotApplied), System(KNOWN, REGISTERED, Flush(FIRST, Failed)), r1);
    assert FAIL + rest == [Upload(NotApplied)] + r1;
  }

  lemma FirstRegisters(rest: seq<Step>)
    requires Possible(CONFIG, System(KNOWN, REGISTERED, Flush(FIRST, Registered)), rest)
    ensures Possible(CONFIG, System(LOGGED, Server(map[], []), Idle), REGISTER + rest)
    ensures After(CONFIG, System(LOGGED, Server(map[], []), Idle), REGISTER + rest)
            == After(CONFIG, System(KNOWN, REGISTERED, Flush(FIRST, Registered)), rest)
  {
    var r2 := [Put(Applied, 0)] + ([Step.MarkInitialized] + rest);
    FirstPuts(rest);
    FirstStarts(r2);
    assert REGISTER + rest == [StartDrain(false, None)] + ([Fetch(0)] + r2);
  }

  lemma FirstStarts(rest: seq<Step>)
    requires Possible(CONFIG, System(LOGGED, Server(map[], []), Flush(FIRST, Begin)), rest)
    ensures Possible(CONFIG, System(LOGGED, Server(map[], []), Idle), [StartDrain(false, None)] + ([Fetch(0)] + rest))
    ensures After(CONFIG, System(LOGGED, Server(map[], []), Idle), [StartDrain(false, None)] + ([Fetch(0)] + rest))
            == After(CONFIG, System(LOGGED, Server(map[], []), Flush(FIRST, Begin)), rest)
  {
    var empty := Server(map[], []);
    FirstIsFetched();
    Before(System(LOGGED, empty, Fetching(None)), Fetch(0), System(LOGGED, empty, Flush(FIRST, Begin)), rest);
    Before(System(LOGGED, empty, Idle), StartDrain(false, None), System(LOGGED, empty, Fetching(None)), [Fetch(0)] + rest);
  }

  lemma FirstPuts(rest: seq<Step>)
    requires Possible(CONFIG, System(KNOWN, REGISTERED, Flush(FIRST, Registered)), rest)
    ensures Possible(CONFIG, System(LOGGED, Server(map[], []), Flush(FIRST, Begin)), [Put(Applied, 0)] + ([Step.MarkInitialized] + rest))
    ensures After(CONFIG, System(LOGGED, Server(map[], []), Flush(FIRST, Begin)), [Put(Applied, 0)] + ([Step.MarkInitialized] + rest))
            == After(CONFIG, System(KNOWN, REGISTERED, Flush(FIRST, Registered)), rest)
  {
    var empty := Server(map[], []);
    var r3 := [Step.MarkInitialized] + rest;
    Before(System(LOGGED, REGISTERED, Flush(FIRST, PutAnswered)), Step.MarkInitialized, System(KNOWN, REGISTERED, Flush(FIRST, Registered)), rest);
    Before(System(LOGGED, empty, Flush(FIRST, Begin)), Put(Applied, 0), System(LOGGED, REGISTERED, Flush(FIRST, PutAnswered)), r3);
  }

  lemma SecondIsLogged()
    ensures Enabled(CONFIG, System(WAITING, REGISTERED, Idle), APPEND)
    ensures Next(CONFIG, System(WAITING, REGISTERED, Idle), APPEND) == System(BOTH, REGISTERED, Idle)
  {
    assert EventsOf(WAITING.rows) == [FIRST];
    OfAll([FIRST], 1);
    assert [FIRST][..0] == [];
    assert NextSeq([FIRST]) == 2;
  }

  lemma SecondIsFetched()
    ensures Next(CONFIG, System(BOTH, REGISTERED, Fetching(None)), Fetch(0)) == System(BOTH, REGISTERED, Flush(SECOND, Begin))
  {
    assert BOTH.rows[..1] == [Row(FIRST, false, 1, 1)];
    assert BOTH.rows[..1][..0] == [];
    assert DueEvents(BOTH.rows[..1], 0) == [];
    assert DueEvents(BOTH.rows, 0) == [] + [SECOND];
    OneDue(SECOND, BOTH);
  }

  lemma OneSorted(e: Event)
    ensures SortedBySeq([e]) == [e]
  {
    assert [e][..0] == [];
    assert Insert([], e) == [] + [e];
  }

  lemma OneIngested(acc: Ingested, e: Event)
    requires Judge(acc.ledger, e) == Accept
    ensures IngestFrom(acc, [e]) == Ok(Accepted(acc, e))
  {
    assert [e][1..] == [];
  }

  lemma SecondIsAccepted()
    ensures Accepts(REGISTERED, 1, [SECOND]) && Uploaded(REGISTERED, 1, [SECOND]) == ACCEPTED
  {
    var l := LedgerOf(REGISTERED, 1);
    OneSorted(SECOND);
    assert Judge(l, SECOND) == Accept;
    OneIngested(Start(l), SECOND);
    assert [] + [SECOND] == [SECOND];
  }

  lemma SecondUploads()
    ensures Enabled(CONFIG, System(BOTH, REGISTERED, Flush(SECOND, Registered)), Upload(Applied))
    ensures Next(CONFIG, System(BOTH, REGISTERED, Flush(SECOND, Registered)), Upload(Applied))
            == System(BOTH, ACCEPTED, Flush(SECOND, UploadAnswered))
  {
    SecondIsAccepted();
  }

  lemma SecondIsSent(rest: seq<Step>)
    requires Possible(CONFIG, System(BOTH, ACCEPTED, Flush(SECOND, UploadAnswered)), rest)
    ensures Possible(CONFIG, System(BOTH, REGISTERED, Flush(SECOND, Begin)), [SkipPut] + ([Upload(Applied)] + rest))
    ensures After(CONFIG, System(BOTH, REGISTERED, Flush(SECOND, Begin)), [SkipPut] + ([Upload(Applied)] + rest))
            == After(CONFIG, System(BOTH, ACCEPTED, Flush(SECOND, UploadAnswered)), rest)
  {
    SecondUploads();
    Before(System(BOTH, REGISTERED, Flush(SECOND, Registered)), Upload(Applied), System(BOTH, ACCEPTED, Flush(SECOND, UploadAnswered)), rest);
    Before(System(BOTH, REGISTERED, Flush(SECOND, Begin)), SkipPut, System(BOTH, REGISTERED, Flush(SECOND, Registered)), [Upload(Applied)] + rest);
  }

  lemma SecondDrain()
    ensures Possible(CONFIG, System(BOTH, REGISTERED, Idle), SECOND_DRAIN)
    ensures After(CONFIG, System(BOTH, REGISTERED, Idle), SECOND_DRAIN)
            == System(BOTH, ACCEPTED, Flush(SECOND, UploadAnswered))
  {
    SecondIsFetched();
    SecondIsSent([]);
    var r2 := [SkipPut] + ([Upload(Applied)] + []);
    var r1 := [Fetch(0)] + r2;
    Before(System(BOTH, REGISTERED, Fetching(None)), Fetch(0), System(BOTH, REGISTERED, Flush(SECOND, Begin)), r2);
    Before(System(BOTH, REGISTERED, Idle), StartDrain(false, None), System(BOTH, REGISTERED, Fetching(None)), r1);
    assert SECOND_DRAIN == [StartDrain(false, None)] + r1;
  }

  const HISTORY := [CREATE] + (REGISTER + (FAIL + ([APPEND] + SECOND_DRAIN)))

  lemma HistoryIsPossible()
    ensures Possible(CONFIG, START, HISTORY)
    ensures After(CONFIG, START, HISTORY) == System(BOTH, ACCEPTED, Flush(SECOND, UploadAnswered))
  {
    FirstIsLogged();
    SecondIsLogged();
    SecondDrain();
    Before(System(WAITING, REGISTERED, Idle), APPEND, System(BOTH, REGISTERED, Idle), SECOND_DRAIN);
    FirstUploadFails([APPEND] + SECOND_DRAIN);
    FirstRegisters(FAIL + ([APPEND] + SECOND_DRAIN));
    Before(START, CREATE, System(LOGGED, Server(map[], []), Idle), REGISTER + (FAIL + ([APPEND] + SECOND_DRAIN)));
  }

  lemma EndIsOvertaken()
    ensures Log(BOTH, 1) == [FIRST, SECOND] && AcceptedOf(ACCEPTED, 1) == [SECOND]
    ensures Overtaken([SECOND], FIRST) && !([SECOND] <= [FIRST, SECOND])
  {
    OfAll([SECOND], 1);
    OfAll([FIRST, SECOND], 1);
    assert EventsOf(BOTH.rows) == [FIRST, SECOND];
    assert [SECOND][0].seqNo >= FIRST.seqNo;
  }

  /** The background loop can leave an accepted list that is not a prefix, with an event overtaken. */
  lemma BackgroundLoopOvertakes()
    ensures Possible(CONFIG, START, HISTORY)
    ensures var s := After(CONFIG, START, HISTORY);
            && Log(s.store, 1) == [FIRST, SECOND] && AcceptedOf(s.server, 1) == [SECOND]
            && !(AcceptedOf(s.server, 1) <= Log(s.store, 1))
            && Overtaken(AcceptedOf(s.server, 1), FIRST)
  {
    HistoryIsPossible();
    EndIsOvertaken();
  }
}
