/**
 The event pipeline as a state machine: local appends, the drain loop of the client
 (cli/src/runbuoy/networking/client.py: flush_pending, drain_pending, outbox_lease)
 and the server's run and event requests (server/app/api.py: upsert_run,
 ingest_run_events).

 Every SQLite transaction and every server transaction is one step.  A request is
 applied, applied with the reply lost, or not applied (lost, or refused by the
 server for any reason); the client may crash before any step, which releases the
 lease.  One machine and its workspace are modelled.
 */
module Pipeline {
  import opened Wrappers
  import opened Events
  import opened Ingest
  import opened Queue
  import opened Sequences

  // The server.

  datatype Server = Server(runs: map<Uuid, Run>, events: seq<Event>)

  datatype UpsertError = NotOwned | Immutable

  function NewRun(run: LocalRun, workspaceId: string, at: int): Run {
    Run(run.id, workspaceId, run.machineId, run.title, run.source, CREATED, "HEALTHY", NONE,
        None, None, None, None, at, None, at, None, None, None, run.policy, 0)
  }

  /** PUT with the body of `RemoteClient.upsert_run`, which always claims the status CREATED. */
  function Upsert(server: Server, run: LocalRun, workspaceId: string, at: int): Result<Server, UpsertError> {
    if run.id !in server.runs then
      Ok(server.(runs := server.runs[run.id := NewRun(run, workspaceId, at)]))
    else
      var existing := server.runs[run.id];
      if existing.machineId != run.machineId then Err(NotOwned)
      else if IsTerminal(existing.status) then Err(Immutable)
      else Ok(server.(runs := server.runs[run.id := existing.(
        title := run.title, source := run.source, health := "HEALTHY", attention := NONE, policy := run.policy)]))
  }

  /** The ledger that an upload for a known run works on. */
  function LedgerOf(server: Server, runId: Uuid): Ledger
    requires runId in server.runs
  {
    Ledger(server.runs[runId], server.events)
  }

  function Stored(server: Server, runId: Uuid, done: Ingested): Server {
    Server(server.runs[runId := done.ledger.run], done.ledger.events)
  }

  /** The server accepts a batch for a run. */
  predicate Accepts(server: Server, runId: Uuid, batch: seq<Event>) {
    runId in server.runs && IngestBatch(LedgerOf(server, runId), batch).Ok?
  }

  function Uploaded(server: Server, runId: Uuid, batch: seq<Event>): Server
    requires Accepts(server, runId, batch)
  {
    Stored(server, runId, IngestBatch(LedgerOf(server, runId), batch).value)
  }

  // The client.

  datatype Group = Group(runId: Uuid, batch: seq<Event>)

  /** Groups events by run, in the order in which the runs first appear. */
  function AddToGroup(groups: seq<Group>, e: Event): seq<Group> {
    if groups == [] then [Group(e.runId, [e])]
    else if groups[0].runId == e.runId then [Group(e.runId, groups[0].batch + [e])] + groups[1..]
    else [groups[0]] + AddToGroup(groups[1..], e)
  }

  function Grouped(es: seq<Event>): seq<Group> {
    if es == [] then [] else AddToGroup(Grouped(es[..|es| - 1]), es[|es| - 1])
  }

  /**
   Where the drainer is with its current group: about to look at the run, its PUT
   answered, the run known to be registered, the upload answered, or an error caught.
   */
  datatype Stage = Begin | PutAnswered | Registered | UploadAnswered | Failed

  datatype Drainer =
    | Idle
    | Fetching(budget: Option<nat>)
    | Flushing(groups: seq<Group>, stage: Stage, delivered: nat, budget: Option<nat>)

  datatype System = System(store: Store, server: Server, drainer: Drainer)

  datatype Config = Config(batchSize: nat, workspaceId: string)

  datatype Fate = Applied | ReplyLost | NotApplied

  datatype Step =
    | CreateRun(run: LocalRun, payload: Payload, eventId: Uuid)
    | Append(runId: Uuid, kind: EventType, payload: Payload, at: int, eventId: Uuid)
    | StartDrain(retryAll: bool, budget: Option<nat>)
    | Fetch(now: nat)
    | SkipPut
    | Put(fate: Fate, at: int)
    | MarkInitialized
    | Upload(fate: Fate)
    | MarkDelivered
    | MarkFailed(now: nat)
    | EndFlush
    | Crash

  const START := System(Store(map[], []), Server(map[], []), Idle)

  predicate FreshId(s: System, id: Uuid) {
    !HasId(EventsOf(s.store.rows), id) && !HasId(s.server.events, id)
  }

  predicate AtStage(s: System, stage: Stage) {
    s.drainer.Flushing? && s.drainer.groups != [] && s.drainer.stage == stage
      && s.drainer.groups[0].runId in s.store.runs
  }

  predicate Enabled(c: Config, s: System, step: Step) {
    match step
    case CreateRun(run, _, id) =>
      && run.id !in s.store.runs && FreshId(s, id)
      && run == NewLocalRun(run.id, run.machineId, run.title, run.source, run.policy, run.updatedAt)
    case Append(runId, _, _, _, id) =>
      runId in s.store.runs && !IsTerminal(s.store.runs[runId].status) && FreshId(s, id)
    case StartDrain(_, _) => s.drainer.Idle?
    case Fetch(_) => s.drainer.Fetching?
    case SkipPut => AtStage(s, Begin) && s.store.runs[s.drainer.groups[0].runId].remoteInitialized
    case Put(fate, at) =>
      && AtStage(s, Begin) && !s.store.runs[s.drainer.groups[0].runId].remoteInitialized
      && (fate.NotApplied? || Upsert(s.server, s.store.runs[s.drainer.groups[0].runId], c.workspaceId, at).Ok?)
    case MarkInitialized => AtStage(s, PutAnswered)
    case Upload(fate) =>
      && AtStage(s, Registered)
      && (fate.NotApplied? || Accepts(s.server, s.drainer.groups[0].runId, s.drainer.groups[0].batch))
    case MarkDelivered => AtStage(s, UploadAnswered)
    case MarkFailed(_) => AtStage(s, Failed)
    case EndFlush => s.drainer.Flushing? && s.drainer.groups == []
    case Crash => true
  }

  /** The drainer goes on to the next group. */
  function NextGroup(d: Drainer, delivered: nat): Drainer
    requires d.Flushing? && d.groups != []
  {
    Flushing(d.groups[1..], Begin, d.delivered + delivered, d.budget)
  }

  function LessOne(budget: Option<nat>): Option<nat> {
    match budget
    case Some(n) => if n > 0 then Some(n - 1) else Some(0)
    case None => None
  }

  function Next(c: Config, s: System, step: Step): System
    requires Enabled(c, s, step)
  {
    match step
    case CreateRun(run, payload, id) => s.(store := Created(s.store, run, payload, id))
    case Append(runId, kind, payload, at, id) => s.(store := Appended(s.store, runId, kind, payload, at, id))
    case StartDrain(retryAll, budget) =>
      s.(store := if retryAll then RetriedAll(s.store) else s.store,
         drainer := if budget == Some(0) then Idle else Fetching(budget))
    case Fetch(now) =>
      s.(drainer := Flushing(Grouped(Pending(s.store, c.batchSize, now)), Begin, 0, LessOne(s.drainer.budget)))
    case SkipPut => s.(drainer := s.drainer.(stage := Registered))
    case Put(fate, at) =>
      var run := s.store.runs[s.drainer.groups[0].runId];
      System(s.store,
             if fate.NotApplied? then s.server else Upsert(s.server, run, c.workspaceId, at).value,
             s.drainer.(stage := if fate.Applied? then PutAnswered else Failed))
    case MarkInitialized =>
      s.(store := Initialized(s.store, s.drainer.groups[0].runId), drainer := s.drainer.(stage := Registered))
    case Upload(fate) =>
      var g := s.drainer.groups[0];
      System(s.store,
             if fate.NotApplied? then s.server else Uploaded(s.server, g.runId, g.batch),
             s.drainer.(stage := if fate.Applied? then UploadAnswered else Failed))
    case MarkDelivered =>
      var g := s.drainer.groups[0];
      s.(store := Delivered(s.store, g.batch), drainer := NextGroup(s.drainer, |g.batch|))
    case MarkFailed(now) =>
      var g := s.drainer.groups[0];
      var delay := Backoff(MostAttempts(s.store.rows, g.runId));
      s.(store := FailedRows(s.store, g.batch, now + delay), drainer := NextGroup(s.drainer, 0))
    case EndFlush =>
      var d := s.drainer;
      s.(drainer := if d.delivered < c.batchSize || d.budget == Some(0) then Idle else Fetching(d.budget))
    case Crash => s.(drainer := Idle)
  }

  /** A history that can happen, and where it ends. */
  ghost predicate Possible(c: Config, s: System, steps: seq<Step>)
    decreases |steps|
  {
    steps == [] || (Enabled(c, s, steps[0]) && Possible(c, Next(c, s, steps[0]), steps[1..]))
  }

  ghost function After(c: Config, s: System, steps: seq<Step>): System
    requires Possible(c, s, steps)
    decreases |steps|
  {
    if steps == [] then s else After(c, Next(c, s, steps[0]), steps[1..])
  }

  // What holds at all times.

  /** The local row of a run before its first event. */
  function Blank(run: LocalRun): LocalRun {
    run.(status := CREATED, progress := None, phase := None, message := None, exitCode := None,
         startedAt := None, updatedAt := 0, endedAt := None)
  }

  predicate Numbered(es: seq<Event>) {
    forall i :: 0 <= i < |es| ==> es[i].seqNo == i + 1
  }

  predicate EndsLast(es: seq<Event>) {
    forall i :: 0 <= i < |es| - 1 ==> !Ends(es[i].kind)
  }

  /** A local run is the projection of its log, which is numbered and ends with the run. */
  predicate RunInvariant(store: Store, runId: Uuid)
    requires runId in store.runs
  {
    var run, log := store.runs[runId], Log(store, runId);
    && run.id == runId
    && log != [] && Numbered(log) && EndsLast(log)
    && run == LocalProject(Blank(run), log)
    && IsTerminal(run.status) == Ends(log[|log| - 1].kind)
    && forall i :: 0 <= i < |log| ==> log[i].machineId == run.machineId
  }

  predicate StoreInvariant(store: Store) {
    && UniqueIds(EventsOf(store.rows))
    && (forall i :: 0 <= i < |store.rows| ==> store.rows[i].event.runId in store.runs)
    && (forall runId :: runId in store.runs ==> RunInvariant(store, runId))
  }

  /** The events of a run that the server has accepted, in the order of acceptance. */
  function AcceptedOf(server: Server, runId: Uuid): seq<Event> {
    Of(server.events, runId)
  }

  /** A Run row registered at some time is the projection of its accepted events. */
  predicate ProjectedSince(run: Run, local: LocalRun, workspaceId: string, accepted: seq<Event>, at: int) {
    run == Project(NewRun(local, workspaceId, at), accepted)
  }

  /** The server's row of a run is what its accepted events make of the registered row. */
  ghost predicate RowInvariant(c: Config, s: System, runId: Uuid)
    requires runId in s.server.runs && runId in s.store.runs
  {
    exists at :: ProjectedSince(s.server.runs[runId], s.store.runs[runId], c.workspaceId, AcceptedOf(s.server, runId), at)
  }

  /** The server's events are local ones, accepted once each and in order of seq within a run. */
  ghost predicate EventsInvariant(s: System) {
    && UniqueIds(s.server.events)
    && (forall runId :: SeqsIncrease(AcceptedOf(s.server, runId)))
    && (forall i :: 0 <= i < |s.server.events| ==> s.server.events[i] in EventsOf(s.store.rows))
    && (forall i :: 0 <= i < |s.server.events| ==> IsInitialized(s.store, s.server.events[i].runId))
    && (forall i :: 0 <= i < |s.store.rows| && s.store.rows[i].delivered ==> s.store.rows[i].event in s.server.events)
  }

  predicate IsInitialized(store: Store, runId: Uuid) {
    runId in store.runs && store.runs[runId].remoteInitialized
  }

  ghost predicate RowsInvariant(c: Config, s: System) {
    && (forall runId :: runId in s.server.runs ==> runId in s.store.runs && RowInvariant(c, s, runId))
    && (forall runId :: IsInitialized(s.store, runId) ==> runId in s.server.runs)
  }

  ghost predicate ServerInvariant(c: Config, s: System) {
    EventsInvariant(s) && RowsInvariant(c, s)
  }

  predicate GroupInvariant(s: System, g: Group) {
    && g.runId in s.store.runs && g.batch != []
    && forall i :: 0 <= i < |g.batch| ==> g.batch[i].runId == g.runId && g.batch[i] in EventsOf(s.store.rows)
  }

  predicate DrainerInvariant(s: System) {
    s.drainer.Flushing? ==>
      && (forall i :: 0 <= i < |s.drainer.groups| ==> GroupInvariant(s, s.drainer.groups[i]))
      && (s.drainer.groups == [] ==> s.drainer.stage == Begin)
      && (s.drainer.groups != [] ==>
            var g := s.drainer.groups[0];
            && (s.drainer.stage == PutAnswered ==> g.runId in s.server.runs)
            && (s.drainer.stage in {Registered, UploadAnswered} ==> s.store.runs[g.runId].remoteInitialized)
            && (s.drainer.stage == UploadAnswered ==> forall i :: 0 <= i < |g.batch| ==> g.batch[i] in s.server.events))
  }

  ghost predicate Invariant(c: Config, s: System) {
    StoreInvariant(s.store) && ServerInvariant(c, s) && DrainerInvariant(s)
  }
}
