/**
 The event pipeline when requests may also arrive after the client has given up on
 them: one that did not take effect while the client waited (its fate was `NotApplied`)
 may still do so at any later time, and more than once.
 */
module PipelineLate {
  import opened Wrappers
  import opened Events
  import opened Ingest
  import opened Queue
  import opened Sequences
  import opened Pipeline
  import opened PipelineInvariant
  import opened PipelineSteps
  import opened PipelineTheorems

  datatype Request = RunRequest(run: LocalRun) | EventsRequest(group: Group)

  /** The pipeline, and the requests that the client has given up on. */
  datatype LateSystem = LateSystem(now: System, lost: seq<Request>)

  datatype LateStep = Ordinary(step: Step) | Arrives(i: nat, at: int)

  const LATE_START := LateSystem(START, [])

  /** What a step leaves on its way to the server. */
  function GivenUp(s: System, step: Step): seq<Request>
    requires (step.Put? ==> AtStage(s, Begin)) && (step.Upload? ==> AtStage(s, Registered))
  {
    if step.Put? && step.fate.NotApplied? then [RunRequest(s.store.runs[s.drainer.groups[0].runId])]
    else if step.Upload? && step.fate.NotApplied? then [EventsRequest(s.drainer.groups[0])]
    else []
  }

  /** A request that arrives and is refused has no effect. */
  predicate Succeeds(c: Config, server: Server, request: Request, at: int) {
    match request
    case RunRequest(run) => Upsert(server, run, c.workspaceId, at).Ok?
    case EventsRequest(g) => Accepts(server, g.runId, g.batch)
  }

  function Arrived(c: Config, server: Server, request: Request, at: int): Server
    requires Succeeds(c, server, request, at)
  {
    match request
    case RunRequest(run) => Upsert(server, run, c.workspaceId, at).value
    case EventsRequest(g) => Uploaded(server, g.runId, g.batch)
  }

  predicate LateEnabled(c: Config, s: LateSystem, step: LateStep) {
    match step
    case Ordinary(o) => Enabled(c, s.now, o)
    case Arrives(i, at) => i < |s.lost| && Succeeds(c, s.now.server, s.lost[i], at)
  }

  function LateNext(c: Config, s: LateSystem, step: LateStep): LateSystem
    requires LateEnabled(c, s, step)
  {
    match step
    case Ordinary(o) => LateSystem(Next(c, s.now, o), s.lost + GivenUp(s.now, o))
    case Arrives(i, at) => s.(now := s.now.(server := Arrived(c, s.now.server, s.lost[i], at)))
  }

  ghost predicate LatePossible(c: Config, s: LateSystem, steps: seq<LateStep>)
    decreases |steps|
  {
    steps == [] || (LateEnabled(c, s, steps[0]) && LatePossible(c, LateNext(c, s, steps[0]), steps[1..]))
  }

  ghost function LateAfter(c: Config, s: LateSystem, steps: seq<LateStep>): LateSystem
    requires LatePossible(c, s, steps)
    decreases |steps|
  {
    if steps == [] then s else LateAfter(c, LateNext(c, s, steps[0]), steps[1..])
  }

  // Servers that differ in attention only.

  predicate AllButAttention(a: Run, b: Run) {
    a == b.(attention := a.attention)
  }

  predicate Alike(a: Server, b: Server) {
    && a.events == b.events && a.runs.Keys == b.runs.Keys
    && forall r :: r in a.runs ==> AllButAttention(a.runs[r], b.runs[r])
  }

  lemma UpsertAlike(a: Server, b: Server, run: LocalRun, workspaceId: string, at: int)
    requires Alike(a, b)
    ensures Upsert(a, run, workspaceId, at).Ok? <==> Upsert(b, run, workspaceId, at).Ok?
    ensures Upsert(a, run, workspaceId, at).Ok? ==>
              Alike(Upsert(a, run, workspaceId, at).value, Upsert(b, run, workspaceId, at).value)
  {
  }

  predicate LedgersAlike(a: Ingested, b: Ingested) {
    a.ledger.events == b.ledger.events && AllButAttention(a.ledger.run, b.ledger.run)
  }

  lemma OneAlike(a: Ingested, b: Ingested, e: Event)
    requires LedgersAlike(a, b)
    ensures IngestOne(a, e).Ok? <==> IngestOne(b, e).Ok?
    ensures IngestOne(a, e).Ok? ==> LedgersAlike(IngestOne(a, e).value, IngestOne(b, e).value)
  {
    assert Judge(a.ledger, e) == Judge(b.ledger, e);
  }

  lemma {:induction false} IngestAlike(a: Ingested, b: Ingested, es: seq<Event>)
    requires LedgersAlike(a, b)
    ensures IngestFrom(a, es).Ok? <==> IngestFrom(b, es).Ok?
    ensures IngestFrom(a, es).Ok? ==> LedgersAlike(IngestFrom(a, es).value, IngestFrom(b, es).value)
    decreases |es|
  {
    if es != [] {
      OneAlike(a, b, es[0]);
      if IngestOne(a, es[0]).Ok? {
        IngestAlike(IngestOne(a, es[0]).value, IngestOne(b, es[0]).value, es[1..]);
      }
    }
  }

  lemma {:induction false} UploadAlike(a: Server, b: Server, runId: Uuid, batch: seq<Event>)
    requires Alike(a, b)
    ensures Accepts(a, runId, batch) <==> Accepts(b, runId, batch)
    ensures Accepts(a, runId, batch) ==> Alike(Uploaded(a, runId, batch), Uploaded(b, runId, batch))
  {
    if runId in a.runs {
      IngestAlike(Ingest.Start(LedgerOf(a, runId)), Ingest.Start(LedgerOf(b, runId)), SortedBySeq(batch));
    }
  }

  // A system without late requests that is the same but for attention.

  /** Requests on their way were sent for a run of the store, and uploads for a registered one. */
  predicate RequestHolds(s: System, request: Request) {
    match request
    case RunRequest(run) => run.id in s.store.runs && SameIdentity(s.store.runs[run.id], run)
    case EventsRequest(g) => GroupInvariant(s, g) && IsInitialized(s.store, g.runId)
  }

  predicate RequestsHold(s: System, lost: seq<Request>) {
    forall i :: 0 <= i < |lost| ==> RequestHolds(s, lost[i])
  }

  ghost predicate Shadows(c: Config, s: LateSystem, b: System) {
    && b.store == s.now.store && b.drainer == s.now.drainer && Alike(s.now.server, b.server)
    && Invariant(c, b) && RequestsHold(b, s.lost)
  }

  /** What a request that arrives late does to that server: nothing, if it registers a run that the server has. */
  function ShadowArrived(c: Config, server: Server, request: Request, at: int): Server {
    match request
    case RunRequest(run) =>
      if run.id in server.runs then server else server.(runs := server.runs[run.id := NewRun(run, c.workspaceId, at)])
    case EventsRequest(g) => if Accepts(server, g.runId, g.batch) then Uploaded(server, g.runId, g.batch) else server
  }

  function ShadowNext(c: Config, s: LateSystem, b: System, step: LateStep): System {
    match step
    case Ordinary(o) => if Enabled(c, b, o) then Next(c, b, o) else b
    case Arrives(i, at) => if i < |s.lost| then b.(server := ShadowArrived(c, b.server, s.lost[i], at)) else b
  }

  lemma {:induction false} RequestStays(s: System, t: System, request: Request)
    requires RequestHolds(s, request) && Grows(s, t)
    ensures RequestHolds(t, request)
  {
    if request.EventsRequest? { GroupStays(s, t, request.group); }
  }

  lemma {:induction false} RequestsStay(s: System, t: System, lost: seq<Request>)
    requires RequestsHold(s, lost) && Grows(s, t)
    ensures RequestsHold(t, lost)
  {
    forall i | 0 <= i < |lost| ensures RequestHolds(t, lost[i]) {
      RequestStays(s, t, lost[i]);
    }
  }

  lemma {:induction false} GivenUpHolds(c: Config, s: System, step: Step)
    requires Invariant(c, s) && Enabled(c, s, step)
    ensures RequestsHold(s, GivenUp(s, step))
  {
    if step.Put? && step.fate.NotApplied? {
      assert RunInvariant(s.store, s.drainer.groups[0].runId);
    } else if step.Upload? && step.fate.NotApplied? {
      assert GroupInvariant(s, s.drainer.groups[0]);
    }
  }

  /** An ordinary step does the same to both. */
  lemma {:induction false} OrdinaryAlike(c: Config, s: System, b: System, step: Step)
    requires b.store == s.store && b.drainer == s.drainer && Alike(s.server, b.server) && Enabled(c, s, step)
    ensures Enabled(c, b, step)
    ensures var t, u := Next(c, s, step), Next(c, b, step);
            t.store == u.store && t.drainer == u.drainer && Alike(t.server, u.server)
    ensures GivenUp(s, step) == GivenUp(b, step)
  {
    if step.Put? {
      UpsertAlike(s.server, b.server, s.store.runs[s.drainer.groups[0].runId], c.workspaceId, step.at);
    } else if step.Upload? {
      UploadAlike(s.server, b.server, s.drainer.groups[0].runId, s.drainer.groups[0].batch);
    }
  }

  lemma {:induction false} OrdinaryRequests(c: Config, b: System, step: Step, lost: seq<Request>)
    requires Invariant(c, b) && Enabled(c, b, step) && RequestsHold(b, lost)
    ensures Invariant(c, Next(c, b, step)) && RequestsHold(Next(c, b, step), lost + GivenUp(b, step))
  {
    var u := Next(c, b, step);
    StepKeeps(c, b, step);
    GivenUpHolds(c, b, step);
    RequestsStay(b, u, lost);
    RequestsStay(b, u, GivenUp(b, step));
  }

  lemma {:induction false} OrdinaryShadow(c: Config, s: LateSystem, b: System, step: Step)
    requires Shadows(c, s, b) && Enabled(c, s.now, step)
    ensures Enabled(c, b, step) && Shadows(c, LateNext(c, s, Ordinary(step)), Next(c, b, step))
  {
    OrdinaryAlike(c, s.now, b, step);
    OrdinaryRequests(c, b, step, s.lost);
  }

  lemma {:induction false} ProjectKeepsNames(run: Run, es: seq<Event>)
    ensures var p := Project(run, es);
            (p.title, p.source, p.health, p.policy) == (run.title, run.source, run.health, run.policy)
    decreases |es|
  {
    if es != [] { ProjectKeepsNames(run, es[..|es| - 1]); }
  }

  lemma {:induction false} NamesAreLocal(c: Config, b: System, runId: Uuid)
    requires Invariant(c, b) && runId in b.server.runs
    ensures runId in b.store.runs
    ensures var row, local := b.server.runs[runId], b.store.runs[runId];
            (row.title, row.source, row.health, row.policy) == (local.title, local.source, "HEALTHY", local.policy)
  {
    assert RowInvariant(c, b, runId);
    var local, accepted := b.store.runs[runId], AcceptedOf(b.server, runId);
    var at :| ProjectedSince(b.server.runs[runId], local, c.workspaceId, accepted, at);
    ProjectKeepsNames(NewRun(local, c.workspaceId, at), accepted);
  }

  /** The server has the run under the machine that sends the request. */
  lemma {:induction false} OwnMachine(c: Config, b: System, run: LocalRun)
    requires Invariant(c, b) && RequestHolds(b, RunRequest(run)) && run.id in b.server.runs
    ensures b.server.runs[run.id].machineId == run.machineId
  {
    assert RowInvariant(c, b, run.id);
    var local, accepted := b.store.runs[run.id], AcceptedOf(b.server, run.id);
    var at :| ProjectedSince(b.server.runs[run.id], local, c.workspaceId, accepted, at);
    ProjectKeeps(NewRun(local, c.workspaceId, at), accepted);
  }

  /** A base system after requests that the server works on while the client does something else. */
  lemma {:induction false} ServerOnlyKeeps(c: Config, b: System, u: System)
    requires Invariant(c, b) && u.store == b.store && u.drainer == b.drainer && ServerInvariant(c, u)
    requires b.server.events <= u.server.events && b.server.runs.Keys <= u.server.runs.Keys
    ensures Invariant(c, u) && Grows(b, u)
  {
    DrainerStays(b, u);
  }

  lemma {:induction false} NewRunKeeps(c: Config, b: System, run: LocalRun, at: int) returns (u: System)
    requires Invariant(c, b) && RequestHolds(b, RunRequest(run)) && run.id !in b.server.runs
    ensures u == b.(server := b.server.(runs := b.server.runs[run.id := NewRun(run, c.workspaceId, at)]))
    ensures Invariant(c, u) && Grows(b, u)
  {
    var local := b.store.runs[run.id];
    assert NewRun(run, c.workspaceId, at) == NewRun(local, c.workspaceId, at);
    u := b.(server := b.server.(runs := b.server.runs[run.id := NewRun(local, c.workspaceId, at)]));
    assert !IsInitialized(b.store, run.id);
    assert RunInvariant(b.store, run.id);
    PutNewKeepsServer(c, b, run.id, at, u);
    ServerOnlyKeeps(c, b, u);
  }

  lemma {:induction false} UploadKeeps(c: Config, b: System, g: Group) returns (u: System)
    requires Invariant(c, b) && RequestHolds(b, EventsRequest(g)) && Accepts(b.server, g.runId, g.batch)
    ensures u == b.(server := Uploaded(b.server, g.runId, g.batch))
    ensures Invariant(c, u) && Grows(b, u)
  {
    u := b.(server := Uploaded(b.server, g.runId, g.batch));
    UploadKeepsServer(c, b, g, u);
    ServerOnlyKeeps(c, b, u);
  }

  /** A server that no longer shows that a run asks for attention. */
  function Reset(server: Server, runId: Uuid): Server
    requires runId in server.runs
  {
    server.(runs := server.runs[runId := server.runs[runId].(attention := NONE)])
  }

  lemma {:induction false} PutResets(server: Server, run: LocalRun, workspaceId: string, at: int)
    requires run.id in server.runs && Upsert(server, run, workspaceId, at).Ok?
    requires var row := server.runs[run.id];
             (row.title, row.source, row.health, row.policy) == (run.title, run.source, "HEALTHY", run.policy)
    ensures Upsert(server, run, workspaceId, at).value == Reset(server, run.id)
    ensures server.runs[run.id].attention == NONE ==> Reset(server, run.id) == server
  {
    if server.runs[run.id].attention == NONE {
      assert server.runs[run.id := server.runs[run.id]] == server.runs;
    }
  }

  lemma {:induction false} ResetAlike(a: Server, b: Server, runId: Uuid)
    requires Alike(a, b) && runId in a.runs
    ensures Alike(Reset(a, runId), b)
  {
    assert a.runs.Keys == Reset(a, runId).runs.Keys;
  }

  /** A late registration of a run that the server has resets the attention status, and nothing else. */
  lemma {:induction false} LateOldRun(c: Config, server: Server, b: System, run: LocalRun, at: int)
    requires Invariant(c, b) && Alike(server, b.server) && RequestHolds(b, RunRequest(run)) && run.id in server.runs
    requires Upsert(server, run, c.workspaceId, at).Ok?
    ensures Upsert(server, run, c.workspaceId, at).value == Reset(server, run.id)
    ensures server.runs[run.id].attention == NONE ==> Reset(server, run.id) == server
  {
    NamesAreLocal(c, b, run.id);
    PutResets(server, run, c.workspaceId, at);
  }

  /** A request that arrives late is an ordinary one, but for that. */
  lemma {:induction false} ArrivedAlike(c: Config, server: Server, b: System, request: Request, at: int)
    requires Invariant(c, b) && Alike(server, b.server) && RequestHolds(b, request) && Succeeds(c, server, request, at)
    ensures Alike(Arrived(c, server, request, at), ShadowArrived(c, b.server, request, at))
  {
    match request
    case RunRequest(run) =>
      if run.id in server.runs {
        LateOldRun(c, server, b, run, at);
        ResetAlike(server, b.server, run.id);
      } else {
        UpsertAlike(server, b.server, run, c.workspaceId, at);
      }
    case EventsRequest(g) => UploadAlike(server, b.server, g.runId, g.batch);
  }

  lemma {:induction false} ArrivedKeeps(c: Config, server: Server, b: System, request: Request, at: int)
    requires Invariant(c, b) && Alike(server, b.server) && RequestHolds(b, request) && Succeeds(c, server, request, at)
    ensures var u := b.(server := ShadowArrived(c, b.server, request, at));
            Invariant(c, u) && Grows(b, u)
  {
    match request
    case RunRequest(run) =>
      if run.id !in b.server.runs {
        var u := NewRunKeeps(c, b, run, at);
      }
    case EventsRequest(g) =>
      UploadAlike(server, b.server, g.runId, g.batch);
      var u := UploadKeeps(c, b, g);
  }

  lemma {:induction false} ArrivesShadows(c: Config, s: LateSystem, b: System, i: nat, at: int)
    requires Shadows(c, s, b) && LateEnabled(c, s, Arrives(i, at))
    ensures Shadows(c, LateNext(c, s, Arrives(i, at)), ShadowNext(c, s, b, Arrives(i, at)))
  {
    assert RequestHolds(b, s.lost[i]);
    ArrivedAlike(c, s.now.server, b, s.lost[i], at);
    ArrivedKeeps(c, s.now.server, b, s.lost[i], at);
    RequestsStay(b, ShadowNext(c, s, b, Arrives(i, at)), s.lost);
  }

  lemma {:induction false} StepShadows(c: Config, s: LateSystem, b: System, step: LateStep)
    requires Shadows(c, s, b) && LateEnabled(c, s, step)
    ensures Shadows(c, LateNext(c, s, step), ShadowNext(c, s, b, step))
  {
    match step
    case Ordinary(o) => OrdinaryShadow(c, s, b, o);
    case Arrives(i, at) => ArrivesShadows(c, s, b, i, at);
  }

  // Attention.

  predicate SetsAttention(e: Event) {
    e.payload.attention.Present? && e.payload.attention.value.Some?
  }

  predicate SetAmong(es: seq<Event>, runId: Uuid) {
    exists i :: 0 <= i < |es| && es[i].runId == runId && SetsAttention(es[i])
  }

  /** A registration finds the run with its owner's attention asked for. */
  predicate Resets(server: Server, request: Request, runId: Uuid) {
    request.RunRequest? && request.run.id == runId && runId in server.runs && server.runs[runId].attention != NONE
  }

  predicate LateResets(s: LateSystem, step: LateStep, runId: Uuid) {
    step.Arrives? && step.i < |s.lost| && Resets(s.now.server, s.lost[step.i], runId)
  }

  /** The events that a server has got. */
  function Added(before: Server, after: Server): seq<Event> {
    if |before.events| <= |after.events| then after.events[|before.events|..] else []
  }

  /**
   The row of a run has lost its attention status: from a registration that finds it set
   until an event is accepted that sets it anew.
   */
  ghost predicate Missed(c: Config, s: LateSystem, steps: seq<LateStep>, runId: Uuid, missed: bool)
    requires LatePossible(c, s, steps)
    decreases |steps|
  {
    if steps == [] then missed
    else Missed(c, LateNext(c, s, steps[0]), steps[1..], runId, MissedNext(c, s, steps[0], runId, missed))
  }

  predicate MissedNext(c: Config, s: LateSystem, step: LateStep, runId: Uuid, missed: bool)
    requires LateEnabled(c, s, step)
  {
    LateResets(s, step, runId) || (missed && !SetAmong(Added(s.now.server, LateNext(c, s, step).now.server), runId))
  }

  /** How the row of a run differs from its shadow. */
  predicate Tracks(a: Server, b: Server, runId: Uuid, missed: bool) {
    if runId !in a.runs || runId !in b.runs then !missed && runId !in a.runs && runId !in b.runs
    else if missed then a.runs[runId].attention == NONE != b.runs[runId].attention
    else a.runs[runId] == b.runs[runId]
  }

  /** The last event that sets the attention status decides about it. */
  lemma {:induction false} AttentionAfter(a: Run, b: Run, es: seq<Event>, runId: Uuid)
    requires forall i :: 0 <= i < |es| ==> es[i].runId == runId
    ensures var x, y := Project(a, es).attention, Project(b, es).attention;
            if SetAmong(es, runId) then x == y else x == a.attention && y == b.attention
    decreases |es|
  {
    if es != [] {
      var n := |es| - 1;
      AttentionAfter(a, b, es[..n], runId);
      if SetAmong(es[..n], runId) {
        var i :| 0 <= i < n && es[..n][i].runId == runId && SetsAttention(es[..n][i]);
        assert SetsAttention(es[i]);
      }
      if SetAmong(es, runId) && !SetsAttention(es[n]) {
        var i :| 0 <= i < |es| && es[i].runId == runId && SetsAttention(es[i]);
        assert es[..n][i] == es[i];
      }
    }
  }

  /** The same events are added to both servers. */
  lemma {:induction false} UploadAddsSame(a: Server, b: Server, runId: Uuid, batch: seq<Event>) returns (added: seq<Event>)
    requires Alike(a, b) && Accepts(a, runId, batch) && Accepts(b, runId, batch)
    requires a.runs[runId].id == runId && b.runs[runId].id == runId
    ensures Uploaded(a, runId, batch).events == a.events + added && Uploaded(a, runId, batch).events[|a.events|..] == added
    ensures Uploaded(a, runId, batch).runs == a.runs[runId := Project(a.runs[runId], added)]
    ensures Uploaded(b, runId, batch).runs == b.runs[runId := Project(b.runs[runId], added)]
    ensures forall i :: 0 <= i < |added| ==> added[i].runId == runId
  {
    UploadAlike(a, b, runId, batch);
    added := UploadExtends(a, runId, batch);
    var other := UploadExtends(b, runId, batch);
    assert (a.events + added)[|a.events|..] == added;
    assert (b.events + other)[|b.events|..] == other;
  }

  lemma {:induction false} UploadTracks(a: Server, b: Server, g: Group, runId: Uuid, missed: bool)
    requires Alike(a, b) && Accepts(a, g.runId, g.batch) && Accepts(b, g.runId, g.batch) && Tracks(a, b, runId, missed)
    requires a.runs[g.runId].id == g.runId && b.runs[g.runId].id == g.runId
    ensures var x, y := Uploaded(a, g.runId, g.batch), Uploaded(b, g.runId, g.batch);
            Tracks(x, y, runId, missed && !SetAmong(Added(a, x), runId))
  {
    var added := UploadAddsSame(a, b, g.runId, g.batch);
    UploadAlike(a, b, g.runId, g.batch);
    if runId == g.runId {
      AttentionAfter(a.runs[runId], b.runs[runId], added, runId);
    }
  }

  /** A registration of a run that neither server has, or that changes nothing for the shadow. */
  lemma {:induction false} PutTracks(a: Server, b: Server, run: LocalRun, workspaceId: string, at: int, runId: Uuid, missed: bool)
    requires Alike(a, b) && Tracks(a, b, runId, missed) && Upsert(a, run, workspaceId, at).Ok?
    requires run.id in b.runs ==> b.runs[run.id].attention == NONE && Upsert(b, run, workspaceId, at) == Ok(b)
    ensures Upsert(b, run, workspaceId, at).Ok?
    ensures Tracks(Upsert(a, run, workspaceId, at).value, Upsert(b, run, workspaceId, at).value, runId, missed)
  {
    if run.id in b.runs {
      assert Upsert(b, run, workspaceId, at).value.runs[run.id] == b.runs[run.id];
    }
  }

  lemma {:induction false} UntouchedAttention(c: Config, b: System, runId: Uuid)
    requires Invariant(c, b) && runId in b.store.runs && !b.store.runs[runId].remoteInitialized && runId in b.server.runs
    ensures b.server.runs[runId].attention == NONE
  {
    assert RowInvariant(c, b, runId);
    NotYetAccepted(b, runId);
    var at :| ProjectedSince(b.server.runs[runId], b.store.runs[runId], c.workspaceId, [], at);
  }

  /** What an ordinary request does to the server. */
  lemma {:induction false} OrdinaryServer(c: Config, s: System, step: Step)
    requires Enabled(c, s, step)
    ensures Next(c, s, step).server ==
            if step.Put? && !step.fate.NotApplied? then Upsert(s.server, s.store.runs[s.drainer.groups[0].runId], c.workspaceId, step.at).value
            else if step.Upload? && !step.fate.NotApplied? then Uploaded(s.server, s.drainer.groups[0].runId, s.drainer.groups[0].batch)
            else s.server
  {
  }

  lemma {:induction false} OrdinaryPutTracks(c: Config, a: Server, b: System, runId: Uuid, at: int, tracked: Uuid, missed: bool)
    requires Invariant(c, b) && Alike(a, b.server) && Tracks(a, b.server, tracked, missed)
    requires runId in b.store.runs && !b.store.runs[runId].remoteInitialized && Upsert(a, b.store.runs[runId], c.workspaceId, at).Ok?
    ensures var run := b.store.runs[runId];
            && Upsert(b.server, run, c.workspaceId, at).Ok?
            && Tracks(Upsert(a, run, c.workspaceId, at).value, Upsert(b.server, run, c.workspaceId, at).value, tracked, missed)
  {
    assert RunInvariant(b.store, runId);
    if runId in b.server.runs {
      PutAgain(c, b, runId, at);
      UntouchedAttention(c, b, runId);
    }
    PutTracks(a, b.server, b.store.runs[runId], c.workspaceId, at, tracked, missed);
  }

  lemma {:induction false} AnyUploadTracks(c: Config, a: Server, b: System, g: Group, runId: Uuid, missed: bool)
    requires Invariant(c, b) && Alike(a, b.server) && Tracks(a, b.server, runId, missed) && Accepts(a, g.runId, g.batch)
    ensures Accepts(b.server, g.runId, g.batch)
    ensures var x, y := Uploaded(a, g.runId, g.batch), Uploaded(b.server, g.runId, g.batch);
            Tracks(x, y, runId, missed && !SetAmong(Added(a, x), runId))
  {
    UploadAlike(a, b.server, g.runId, g.batch);
    RowHasId(c, b, g.runId);
    UploadTracks(a, b.server, g, runId, missed);
  }

  lemma PutAddsNothing(server: Server, run: LocalRun, workspaceId: string, at: int)
    requires Upsert(server, run, workspaceId, at).Ok?
    ensures Upsert(server, run, workspaceId, at).value.events == server.events
  {
  }

  lemma NothingAdded(before: Server, after: Server, runId: Uuid)
    requires after.events == before.events
    ensures !SetAmong(Added(before, after), runId)
  {
  }

  lemma {:induction false} OrdinaryTracks(c: Config, s: System, b: System, step: Step, runId: Uuid, missed: bool)
    requires Invariant(c, b) && b.store == s.store && b.drainer == s.drainer && Alike(s.server, b.server) && Enabled(c, s, step)
    requires Tracks(s.server, b.server, runId, missed) && Enabled(c, b, step)
    ensures var t, u := Next(c, s, step).server, Next(c, b, step).server;
            Tracks(t, u, runId, missed && !SetAmong(Added(s.server, t), runId))
  {
    OrdinaryServer(c, s, step);
    OrdinaryServer(c, b, step);
    if step.Put? && !step.fate.NotApplied? {
      OrdinaryPutTracks(c, s.server, b, s.drainer.groups[0].runId, step.at, runId, missed);
      PutAddsNothing(s.server, s.store.runs[s.drainer.groups[0].runId], c.workspaceId, step.at);
      NothingAdded(s.server, Next(c, s, step).server, runId);
    } else if step.Upload? && !step.fate.NotApplied? {
      AnyUploadTracks(c, s.server, b, s.drainer.groups[0], runId, missed);
    } else {
      NothingAdded(s.server, Next(c, s, step).server, runId);
    }
  }

  lemma ResetTracks(a: Server, b: Server, id: Uuid, runId: Uuid, missed: bool)
    requires Alike(a, b) && Tracks(a, b, runId, missed) && id in a.runs
    ensures Tracks(Reset(a, id), b, runId, (id == runId && a.runs[id].attention != NONE) || missed)
  {
  }

  lemma {:induction false} LatePutTracks(c: Config, a: Server, b: System, run: LocalRun, at: int, runId: Uuid, missed: bool)
    requires Invariant(c, b) && Alike(a, b.server) && RequestHolds(b, RunRequest(run)) && Upsert(a, run, c.workspaceId, at).Ok?
    requires Tracks(a, b.server, runId, missed)
    ensures Tracks(Upsert(a, run, c.workspaceId, at).value, ShadowArrived(c, b.server, RunRequest(run), at), runId,
                   Resets(a, RunRequest(run), runId) || missed)
  {
    if run.id in a.runs {
      LateOldRun(c, a, b, run, at);
      ResetTracks(a, b.server, run.id, runId, missed);
    } else {
      PutTracks(a, b.server, run, c.workspaceId, at, runId, missed);
    }
  }

  lemma {:induction false} ArrivedTracks(c: Config, a: Server, b: System, request: Request, at: int, runId: Uuid, missed: bool)
    requires Invariant(c, b) && Alike(a, b.server) && RequestHolds(b, request) && Succeeds(c, a, request, at)
    requires Tracks(a, b.server, runId, missed)
    ensures var x := Arrived(c, a, request, at);
            Tracks(x, ShadowArrived(c, b.server, request, at), runId, Resets(a, request, runId) || (missed && !SetAmong(Added(a, x), runId)))
  {
    match request
    case RunRequest(run) =>
      PutAddsNothing(a, run, c.workspaceId, at);
      NothingAdded(a, Arrived(c, a, request, at), runId);
      LatePutTracks(c, a, b, run, at, runId, missed);
    case EventsRequest(g) => AnyUploadTracks(c, a, b, g, runId, missed);
  }

  lemma {:induction false} StepTracks(c: Config, s: LateSystem, b: System, step: LateStep, runId: Uuid, missed: bool)
    requires Shadows(c, s, b) && LateEnabled(c, s, step) && Tracks(s.now.server, b.server, runId, missed)
    ensures Tracks(LateNext(c, s, step).now.server, ShadowNext(c, s, b, step).server, runId, MissedNext(c, s, step, runId, missed))
  {
    match step
    case Ordinary(o) =>
      OrdinaryAlike(c, s.now, b, o);
      OrdinaryTracks(c, s.now, b, o, runId, missed);
    case Arrives(i, at) =>
      assert RequestHolds(b, s.lost[i]);
      ArrivedTracks(c, s.now.server, b, s.lost[i], at, runId, missed);
  }

  lemma {:induction false} HistoryShadows(c: Config, s: LateSystem, b: System, steps: seq<LateStep>, runId: Uuid, missed: bool) returns (u: System)
    requires Shadows(c, s, b) && LatePossible(c, s, steps) && Tracks(s.now.server, b.server, runId, missed)
    ensures Shadows(c, LateAfter(c, s, steps), u)
    ensures Tracks(LateAfter(c, s, steps).now.server, u.server, runId, Missed(c, s, steps, runId, missed))
    decreases |steps|
  {
    if steps == [] {
      u := b;
    } else {
      StepShadows(c, s, b, steps[0]);
      StepTracks(c, s, b, steps[0], runId, missed);
      u := HistoryShadows(c, LateNext(c, s, steps[0]), ShadowNext(c, s, b, steps[0]), steps[1..], runId, MissedNext(c, s, steps[0], runId, missed));
    }
  }

  lemma {:induction false} FromStart(c: Config, steps: seq<LateStep>, runId: Uuid) returns (u: System)
    requires LatePossible(c, LATE_START, steps)
    ensures Shadows(c, LateAfter(c, LATE_START, steps), u)
    ensures Tracks(LateAfter(c, LATE_START, steps).now.server, u.server, runId, Missed(c, LATE_START, steps, runId, false))
  {
    StartInvariant(c);
    u := HistoryShadows(c, LATE_START, START, steps, runId, false);
  }

  /** A row is the fold of some events from a registration at some time, but for the attention status. */
  predicate FoldedSince(row: Run, local: LocalRun, workspaceId: string, accepted: seq<Event>, at: int) {
    AllButAttention(row, Project(NewRun(local, workspaceId, at), accepted))
  }

  /** The row is the fold of its accepted events from a registration at some time. */
  ghost predicate IsFold(s: System, workspaceId: string, runId: Uuid)
    requires runId in s.server.runs && runId in s.store.runs
  {
    exists at :: ProjectedSince(s.server.runs[runId], s.store.runs[runId], workspaceId, AcceptedOf(s.server, runId), at)
  }

  /** Whatever the time of the registration, the events decide about the attention status. */
  lemma {:induction false} FoldAttention(local: LocalRun, workspaceId: string, accepted: seq<Event>, runId: Uuid, at: int, at': int)
    requires forall i :: 0 <= i < |accepted| ==> accepted[i].runId == runId
    ensures Project(NewRun(local, workspaceId, at), accepted).attention == Project(NewRun(local, workspaceId, at'), accepted).attention
  {
    AttentionAfter(NewRun(local, workspaceId, at), NewRun(local, workspaceId, at'), accepted, runId);
  }

  lemma {:induction false} FoldIffTracked(c: Config, s: System, u: System, runId: Uuid, missed: bool)
    requires Invariant(c, u) && u.store == s.store && Alike(s.server, u.server) && Tracks(s.server, u.server, runId, missed)
    requires runId in s.server.runs
    ensures runId in s.store.runs && IsFold(s, c.workspaceId, runId) == !missed
    ensures exists at :: FoldedSince(s.server.runs[runId], s.store.runs[runId], c.workspaceId, AcceptedOf(s.server, runId), at)
  {
    assert RowInvariant(c, u, runId);
    var local, accepted := s.store.runs[runId], AcceptedOf(s.server, runId);
    var at :| ProjectedSince(u.server.runs[runId], local, c.workspaceId, accepted, at);
    assert FoldedSince(s.server.runs[runId], local, c.workspaceId, accepted, at);
    if missed && IsFold(s, c.workspaceId, runId) {
      var other :| ProjectedSince(s.server.runs[runId], local, c.workspaceId, accepted, other);
      OfMembers(s.server.events, runId);
      FoldAttention(local, c.workspaceId, accepted, runId, at, other);
    }
  }

  /**
   What late requests leave of the guarantees: the accepted events are a selection of the
   log as before, none twice, and every column of the Run row but the attention status is
   their fold; the whole row is, if and only if its attention status has not been lost to
   a late registration or an event has set it anew.
   */
  lemma {:induction false} ExactlyOnceDespiteLateRequests(c: Config, steps: seq<LateStep>, runId: Uuid)
    requires LatePossible(c, LATE_START, steps)
    ensures var s := LateAfter(c, LATE_START, steps).now;
            && UniqueIds(s.server.events)
            && SubLog(AcceptedOf(s.server, runId), Log(s.store, runId))
            && (runId in s.server.runs ==>
                  && runId in s.store.runs
                  && (exists at :: FoldedSince(s.server.runs[runId], s.store.runs[runId], c.workspaceId, AcceptedOf(s.server, runId), at))
                  && (IsFold(s, c.workspaceId, runId) <==> !Missed(c, LATE_START, steps, runId, false)))
  {
    var s := LateAfter(c, LATE_START, steps).now;
    var u := FromStart(c, steps, runId);
    AcceptedIsSubLog(c, u, runId);
    if runId in s.server.runs {
      FoldIffTracked(c, s, u, runId, Missed(c, LATE_START, steps, runId, false));
    }
  }

  /**
   After any history, a registration that arrives late for a run that the server has is
   refused if the run has ended; otherwise the attention status of its row is gone, and
   nothing else has changed on the server.
   */
  lemma {:induction false} LateRegistration(c: Config, steps: seq<LateStep>, i: nat, at: int)
    requires LatePossible(c, LATE_START, steps)
    requires var s := LateAfter(c, LATE_START, steps);
             i < |s.lost| && s.lost[i].RunRequest? && s.lost[i].run.id in s.now.server.runs
    ensures var s := LateAfter(c, LATE_START, steps);
            var runId, put := s.lost[i].run.id, Upsert(s.now.server, s.lost[i].run, c.workspaceId, at);
            if IsTerminal(s.now.server.runs[runId].status) then put == Err(Immutable)
            else put == Ok(Reset(s.now.server, runId))
  {
    var s := LateAfter(c, LATE_START, steps);
    var u := FromStart(c, steps, s.lost[i].run.id);
    assert RequestHolds(u, s.lost[i]);
    OwnMachine(c, u, s.lost[i].run);
    if !IsTerminal(s.now.server.runs[s.lost[i].run.id].status) {
      LateOldRun(c, s.now.server, u, s.lost[i].run, at);
    }
  }

  /** Convergence survives late requests: the projections agree on none but columns that a reset leaves alone. */
  lemma {:induction false} ConvergenceDespiteLateRequests(c: Config, steps: seq<LateStep>, runId: Uuid)
    requires LatePossible(c, LATE_START, steps)
    requires var s := LateAfter(c, LATE_START, steps).now; runId in s.store.runs && AllDelivered(s.store, runId)
    ensures var s := LateAfter(c, LATE_START, steps).now;
            && AcceptedOf(s.server, runId) == Log(s.store, runId) && runId in s.server.runs
            && (WorkerShaped(Log(s.store, runId)) ==> Agree(s.server.runs[runId], s.store.runs[runId]))
  {
    var u := FromStart(c, steps, runId);
    DeliveredAgrees(c, u, runId);
  }
}
