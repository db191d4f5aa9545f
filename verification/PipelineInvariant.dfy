/** The invariant of the event pipeline holds in every history. */
module PipelineInvariant {
  import opened Wrappers
  import opened Events
  import opened Ingest
  import opened IngestLaws
  import opened Queue
  import opened Sequences
  import opened Pipeline

  // Projections.

  lemma {:induction false} ProjectConcat(run: Run, a: seq<Event>, b: seq<Event>)
    ensures Project(run, a + b) == Project(Project(run, a), b)
    decreases |b|
  {
    if b == [] {
      assert a + b == a;
    } else {
      var n := |b| - 1;
      InitAndLast(b);
      ConcatAssociates(a, b[..n], [b[n]]);
      ProjectConcat(run, a, b[..n]);
      ProjectSnoc(run, a + b[..n], b[n]);
    }
  }

  lemma {:induction false} ProjectKeeps(run: Run, es: seq<Event>)
    ensures var p := Project(run, es);
            p.id == run.id && p.machineId == run.machineId && p.health == run.health
            && p.lastSeq == if es == [] then run.lastSeq else es[|es| - 1].seqNo
    decreases |es|
  {
    if es != [] {
      ProjectKeeps(run, es[..|es| - 1]);
    }
  }

  // The local store.

  lemma {:induction false} NextSeqOfNumbered(es: seq<Event>)
    requires Numbered(es)
    ensures NextSeq(es) == |es| + 1
    decreases |es|
  {
    if es != [] {
      NextSeqOfNumbered(es[..|es| - 1]);
    }
  }

  /** The rows after an append. */
  lemma AppendedRows(store: Store, runId: Uuid, kind: EventType, payload: Payload, at: int, id: Uuid, e: Event)
    requires runId in store.runs
    requires e == Event(id, runId, store.runs[runId].machineId, NextSeq(Log(store, runId)), kind, at, payload)
    ensures var after := Appended(store, runId, kind, payload, at, id);
            && EventsOf(after.rows) == EventsOf(store.rows) + [e]
            && Log(after, runId) == Log(store, runId) + [e]
            && (forall r: Uuid :: r != runId ==> Log(after, r) == Log(store, r))
            && after.runs == store.runs[runId := LocalApply(store.runs[runId], e)]
  {
    var after := Appended(store, runId, kind, payload, at, id);
    assert EventsOf(after.rows) == EventsOf(store.rows) + [e];
    OfSnoc(EventsOf(store.rows), e, runId);
    forall r: Uuid | r != runId ensures Log(after, r) == Log(store, r) {
      OfSnoc(EventsOf(store.rows), e, r);
      assert Log(store, r) + [] == Log(store, r);
    }
  }

  lemma NumberedGrows(log: seq<Event>, e: Event)
    requires Numbered(log) && EndsLast(log) && (log != [] ==> !Ends(log[|log| - 1].kind)) && e.seqNo == |log| + 1
    ensures Numbered(log + [e]) && EndsLast(log + [e])
  {
  }

  /** A run that is the projection of its log still is after one more event. */
  lemma ProjectionGrows(run: LocalRun, log: seq<Event>, e: Event)
    requires run == LocalProject(Blank(run), log)
    ensures LocalApply(run, e) == LocalProject(Blank(LocalApply(run, e)), log + [e])
  {
    LocalProjectSnoc(Blank(run), log, e);
    assert Blank(LocalApply(run, e)) == Blank(run);
  }

  lemma StatusOfLast(run: LocalRun, e: Event)
    requires !IsTerminal(run.status)
    ensures IsTerminal(LocalApply(run, e).status) == Ends(e.kind)
  {
  }

  lemma AppendKeepsRun(store: Store, runId: Uuid, kind: EventType, payload: Payload, at: int, id: Uuid)
    requires runId in store.runs && RunInvariant(store, runId) && !IsTerminal(store.runs[runId].status)
    ensures RunInvariant(Appended(store, runId, kind, payload, at, id), runId)
  {
    var run, log := store.runs[runId], Log(store, runId);
    var e := Event(id, runId, run.machineId, NextSeq(log), kind, at, payload);
    AppendedRows(store, runId, kind, payload, at, id, e);
    NextSeqOfNumbered(log);
    NumberedGrows(log, e);
    ProjectionGrows(run, log, e);
    StatusOfLast(run, e);
  }

  /** The store with one more row, whose run is as it should be. */
  lemma {:induction false} GrownStore(store: Store, after: Store, runId: Uuid, run: LocalRun, e: Event)
    requires StoreInvariant(store) && !HasId(EventsOf(store.rows), e.id) && e.runId == runId
    requires EventsOf(after.rows) == EventsOf(store.rows) + [e] && after.runs == store.runs[runId := run]
    requires forall r: Uuid :: r != runId ==> Log(after, r) == Log(store, r)
    requires RunInvariant(after, runId)
    ensures StoreInvariant(after)
  {
    assert UniqueIds(EventsOf(after.rows));
    forall r | r in after.runs ensures RunInvariant(after, r) {
      if r != runId { assert RunInvariant(store, r); }
    }
    forall i | 0 <= i < |after.rows| ensures after.rows[i].event.runId in after.runs {
      assert EventsOf(after.rows)[i] == (EventsOf(store.rows) + [e])[i];
      assert i < |store.rows| ==> store.rows[i].event.runId in store.runs;
    }
  }

  lemma {:induction false} AppendKeepsStore(store: Store, runId: Uuid, kind: EventType, payload: Payload, at: int, id: Uuid)
    requires StoreInvariant(store) && runId in store.runs && !IsTerminal(store.runs[runId].status)
    requires !HasId(EventsOf(store.rows), id)
    ensures StoreInvariant(Appended(store, runId, kind, payload, at, id))
  {
    var e := Event(id, runId, store.runs[runId].machineId, NextSeq(Log(store, runId)), kind, at, payload);
    AppendedRows(store, runId, kind, payload, at, id, e);
    AppendKeepsRun(store, runId, kind, payload, at, id);
    GrownStore(store, Appended(store, runId, kind, payload, at, id), runId, LocalApply(store.runs[runId], e), e);
  }

  predicate IsNew(run: LocalRun) {
    run == NewLocalRun(run.id, run.machineId, run.title, run.source, run.policy, run.updatedAt)
  }

  /** The store after a run is created. */
  lemma CreatedRows(store: Store, run: LocalRun, payload: Payload, id: Uuid, e: Event)
    requires StoreInvariant(store) && run.id !in store.runs
    requires e == Event(id, run.id, run.machineId, 1, RunCreated, run.updatedAt, payload)
    ensures var after := Created(store, run, payload, id);
            && EventsOf(after.rows) == EventsOf(store.rows) + [e]
            && Log(after, run.id) == [e]
            && (forall r: Uuid :: r != run.id ==> Log(after, r) == Log(store, r))
            && after.runs == store.runs[run.id := LocalApply(run, e)]
  {
    var base := store.(runs := store.runs[run.id := run]);
    forall i | 0 <= i < |EventsOf(store.rows)| ensures EventsOf(store.rows)[i].runId != run.id {
      assert store.rows[i].event.runId in store.runs;
    }
    OfNone(EventsOf(store.rows), run.id);
    AppendedRows(base, run.id, RunCreated, payload, run.updatedAt, id, e);
  }

  lemma NewRunIsBlank(run: LocalRun, e: Event)
    requires IsNew(run) && e.kind == RunCreated && e.seqNo == 1
    ensures var run' := LocalApply(run, e);
            Numbered([e]) && EndsLast([e]) && run' == LocalProject(Blank(run'), [e]) && !IsTerminal(run'.status)
  {
    var blank := Blank(LocalApply(run, e));
    LocalProjectSnoc(blank, [], e);
    assert [] + [e] == [e];
    assert LocalApply(run, e) == LocalApply(blank, e);
  }

  lemma {:induction false} CreateKeepsStore(store: Store, run: LocalRun, payload: Payload, id: Uuid)
    requires StoreInvariant(store) && run.id !in store.runs && IsNew(run) && !HasId(EventsOf(store.rows), id)
    ensures StoreInvariant(Created(store, run, payload, id))
  {
    var e := Event(id, run.id, run.machineId, 1, RunCreated, run.updatedAt, payload);
    var after := Created(store, run, payload, id);
    CreatedRows(store, run, payload, id, e);
    NewRunIsBlank(run, e);
    assert RunInvariant(after, run.id);
    GrownStore(store, after, run.id, LocalApply(run, e), e);
  }

  /** Changes that keep events and projections keep the invariant of the store. */
  lemma {:induction false} SameLogsKeepStore(store: Store, after: Store)
    requires StoreInvariant(store)
    requires EventsOf(after.rows) == EventsOf(store.rows) && after.runs.Keys == store.runs.Keys
    requires forall r :: r in store.runs ==> after.runs[r] == store.runs[r].(remoteInitialized := after.runs[r].remoteInitialized)
    ensures StoreInvariant(after)
  {
    forall i | 0 <= i < |after.rows| ensures after.rows[i].event.runId in after.runs {
      assert EventsOf(after.rows)[i] == EventsOf(store.rows)[i];
      assert store.rows[i].event.runId in store.runs;
    }
    forall r | r in after.runs ensures RunInvariant(after, r) {
      assert RunInvariant(store, r);
      FlagIsApart(Blank(store.runs[r]), Log(store, r), after.runs[r].remoteInitialized);
      assert Blank(after.runs[r]) == Blank(store.runs[r]).(remoteInitialized := after.runs[r].remoteInitialized);
    }
  }

  lemma {:induction false} FlagIsApart(run: LocalRun, es: seq<Event>, flag: bool)
    ensures LocalProject(run.(remoteInitialized := flag), es) == LocalProject(run, es).(remoteInitialized := flag)
    decreases |es|
  {
    if es != [] {
      FlagIsApart(run, es[..|es| - 1], flag);
    }
  }

  // The server.

  predicate SameIdentity(a: LocalRun, b: LocalRun) {
    (a.id, a.machineId, a.title, a.source, a.policy) == (b.id, b.machineId, b.title, b.source, b.policy)
  }

  /** A change of the store alone keeps what the server knows about it. */
  ghost predicate StoreOnly(s: System, after: System) {
    && after.server == s.server
    && EventsOf(s.store.rows) <= EventsOf(after.store.rows)
    && (forall r :: r in s.store.runs ==> r in after.store.runs && SameIdentity(after.store.runs[r], s.store.runs[r]))
    && (forall r :: IsInitialized(s.store, r) ==> IsInitialized(after.store, r))
    && (forall r :: IsInitialized(after.store, r) ==> r in s.server.runs)
    && (forall i :: 0 <= i < |after.store.rows| && after.store.rows[i].delivered ==>
          after.store.rows[i].event in s.server.events)
  }

  lemma {:induction false} StoreChangeKeepsServer(c: Config, s: System, after: System)
    requires ServerInvariant(c, s) && StoreOnly(s, after)
    ensures ServerInvariant(c, after)
  {
    forall i | 0 <= i < |s.server.events| ensures s.server.events[i] in EventsOf(after.store.rows) {
      assert s.server.events[i] in EventsOf(s.store.rows);
    }
    forall r ensures SeqsIncrease(AcceptedOf(after.server, r)) {
      assert SeqsIncrease(AcceptedOf(s.server, r));
    }
    forall r | r in s.server.runs ensures r in after.store.runs && RowInvariant(c, after, r) {
      assert RowInvariant(c, s, r);
      var at :| ProjectedSince(s.server.runs[r], s.store.runs[r], c.workspaceId, AcceptedOf(s.server, r), at);
      assert ProjectedSince(after.server.runs[r], after.store.runs[r], c.workspaceId, AcceptedOf(after.server, r), at);
    }
  }

  lemma {:induction false} NotYetAccepted(s: System, runId: Uuid)
    requires EventsInvariant(s) && runId in s.store.runs && !s.store.runs[runId].remoteInitialized
    ensures AcceptedOf(s.server, runId) == []
  {
    forall i | 0 <= i < |s.server.events| ensures s.server.events[i].runId != runId {
      assert IsInitialized(s.store, s.server.events[i].runId);
    }
    OfNone(s.server.events, runId);
  }

  /** Registering a run again, whenever the client does that, changes nothing and is never refused. */
  lemma {:induction false} PutAgain(c: Config, s: System, runId: Uuid, at: int)
    requires StoreInvariant(s.store) && ServerInvariant(c, s)
    requires runId in s.store.runs && !s.store.runs[runId].remoteInitialized && runId in s.server.runs
    ensures Upsert(s.server, s.store.runs[runId], c.workspaceId, at) == Ok(s.server)
  {
    assert RunInvariant(s.store, runId) && RowInvariant(c, s, runId);
    NotYetAccepted(s, runId);
    var registered :| ProjectedSince(s.server.runs[runId], s.store.runs[runId], c.workspaceId, [], registered);
    assert s.server.runs[runId] == NewRun(s.store.runs[runId], c.workspaceId, registered);
    assert s.server.runs[runId := s.server.runs[runId]] == s.server.runs;
  }

  lemma {:induction false} PutNewKeepsServer(c: Config, s: System, runId: Uuid, at: int, after: System)
    requires ServerInvariant(c, s)
    requires runId in s.store.runs && !s.store.runs[runId].remoteInitialized && runId !in s.server.runs
    requires after.store == s.store && after.server.events == s.server.events
    requires after.server.runs == s.server.runs[runId := NewRun(s.store.runs[runId], c.workspaceId, at)]
    ensures ServerInvariant(c, after)
  {
    NotYetAccepted(s, runId);
    assert ProjectedSince(after.server.runs[runId], after.store.runs[runId], c.workspaceId, AcceptedOf(after.server, runId), at);
    forall r | r in after.server.runs ensures r in after.store.runs && RowInvariant(c, after, r) {
      if r != runId { RowUnmoved(c, s, after, r); }
    }
    forall r ensures SeqsIncrease(AcceptedOf(after.server, r)) {
      assert SeqsIncrease(AcceptedOf(s.server, r));
    }
  }

  lemma {:induction false} PutKeepsServer(c: Config, s: System, runId: Uuid, at: int, after: System)
    requires StoreInvariant(s.store) && ServerInvariant(c, s)
    requires runId in s.store.runs && !s.store.runs[runId].remoteInitialized
    requires Upsert(s.server, s.store.runs[runId], c.workspaceId, at).Ok?
    requires after.store == s.store && after.server == Upsert(s.server, s.store.runs[runId], c.workspaceId, at).value
    ensures ServerInvariant(c, after) && runId in after.server.runs && after.server.events == s.server.events
    ensures s.server.runs.Keys <= after.server.runs.Keys
  {
    if runId in s.server.runs {
      PutAgain(c, s, runId, at);
      assert StoreOnly(s, after);
      StoreChangeKeepsServer(c, s, after);
    } else {
      assert RunInvariant(s.store, runId);
      PutNewKeepsServer(c, s, runId, at, after);
    }
  }

  lemma RowUnmoved(c: Config, s: System, after: System, r: Uuid)
    requires RowsInvariant(c, s) && after.store == s.store
    requires r in s.server.runs && r in after.server.runs && after.server.runs[r] == s.server.runs[r]
    requires AcceptedOf(after.server, r) == AcceptedOf(s.server, r)
    ensures r in after.store.runs && RowInvariant(c, after, r)
  {
    assert RowInvariant(c, s, r);
  }

  // Uploads.

  /** The members of an extension come from the batch, belong to the run and are later than what it had. */
  predicate Later(run: Run, added: seq<Event>, batch: seq<Event>) {
    forall i :: 0 <= i < |added| ==>
      added[i] in batch && added[i].runId == run.id && added[i].machineId == run.machineId && added[i].seqNo > run.lastSeq
  }

  /** What a successful ingestion adds to a run: events of the batch, later than any before. */
  predicate Extends(before: Ledger, after: Ledger, added: seq<Event>, batch: seq<Event>) {
    && after.events == before.events + added
    && after.run == Project(before.run, added)
    && SeqsIncrease(added)
    && Later(before.run, added, batch)
    && (UniqueIds(before.events) ==> UniqueIds(after.events))
  }

  lemma {:induction false} ExtendsByOne(acc: Ingested, e: Event)
    requires Judge(acc.ledger, e).Accept?
    ensures Extends(acc.ledger, Accepted(acc, e).ledger, [e], [e])
  {
    ProjectOne(acc.ledger.run, e);
    NewIdIsUnique(acc.ledger.events, e);
  }

  lemma ProjectOne(run: Run, e: Event)
    ensures Project(run, [e]) == Apply(run, e)
  {
    ProjectSnoc(run, [], e);
    assert [] + [e] == [e];
  }

  lemma NewIdIsUnique(events: seq<Event>, e: Event)
    requires !HasId(events, e.id)
    ensures UniqueIds(events) ==> UniqueIds(events + [e])
  {
  }

  lemma IncreasingCons(e: Event, rest: seq<Event>)
    requires SeqsIncrease(rest) && forall i :: 0 <= i < |rest| ==> rest[i].seqNo > e.seqNo
    ensures SeqsIncrease([e] + rest)
  {
    var added := [e] + rest;
    forall j, k | 0 <= j < k < |added| ensures added[j].seqNo < added[k].seqNo {
      assert added[k] == rest[k - 1];
      assert j > 0 ==> added[j] == rest[j - 1];
    }
  }

  lemma LaterCons(run: Run, next: Run, e: Event, rest: seq<Event>, es: seq<Event>)
    requires Later(run, [e], [e]) && Later(next, rest, es)
    requires (next.id, next.machineId, next.lastSeq) == (run.id, run.machineId, e.seqNo)
    ensures Later(run, [e] + rest, [e] + es)
  {
    var added := [e] + rest;
    forall i | 0 <= i < |added|
      ensures added[i] in [e] + es && added[i].runId == run.id && added[i].machineId == run.machineId && added[i].seqNo > run.lastSeq
    {
      assert i > 0 ==> added[i] == rest[i - 1];
      assert [e][0].seqNo > run.lastSeq;
    }
  }

  lemma {:induction false} ExtendsOn(a: Ledger, b: Ledger, c: Ledger, e: Event, rest: seq<Event>, es: seq<Event>)
    requires Extends(a, b, [e], [e]) && Extends(b, c, rest, es)
    ensures Extends(a, c, [e] + rest, [e] + es)
  {
    ProjectConcat(a.run, [e], rest);
    ProjectKeeps(a.run, [e]);
    ConcatAssociates(a.events, [e], rest);
    LaterCons(a.run, b.run, e, rest, es);
    IncreasingCons(e, rest);
  }

  lemma {:induction false} IngestExtends(acc: Ingested, es: seq<Event>) returns (added: seq<Event>)
    requires IngestFrom(acc, es).Ok?
    ensures Extends(acc.ledger, IngestFrom(acc, es).value.ledger, added, es)
    decreases |es|
  {
    if es == [] {
      added := [];
      assert acc.ledger.events + [] == acc.ledger.events;
    } else {
      var next := IngestOne(acc, es[0]).value;
      var rest := IngestExtends(next, es[1..]);
      assert es == [es[0]] + es[1..];
      if Judge(acc.ledger, es[0]).Accept? {
        ExtendsByOne(acc, es[0]);
        var done := IngestFrom(next, es[1..]).value.ledger;
        ExtendsOn(acc.ledger, next.ledger, done, es[0], rest, es[1..]);
        added := [es[0]] + rest;
      } else {
        added := rest;
        forall i | 0 <= i < |added| ensures added[i] in es {
          assert added[i] in es[1..];
        }
      }
    }
  }

  lemma {:induction false} UploadExtends(server: Server, runId: Uuid, batch: seq<Event>) returns (added: seq<Event>)
    requires Accepts(server, runId, batch)
    ensures Extends(LedgerOf(server, runId), IngestBatch(LedgerOf(server, runId), batch).value.ledger, added, batch)
    ensures forall e :: e in batch ==> Known(Uploaded(server, runId, batch).events, server.runs[runId].id, e)
  {
    var l, sorted := LedgerOf(server, runId), SortedBySeq(batch);
    added := IngestExtends(Start(l), sorted);
    IngestRemembers(Start(l), sorted);
    SortedBySeqSorts(batch);
    forall e ensures e in batch <==> e in sorted {
      assert e in batch <==> e in multiset(batch);
      assert e in sorted <==> e in multiset(sorted);
    }
  }

  /** The accepted events of every run after `added` has been inserted. */
  lemma {:induction false} AcceptedAfter(events: seq<Event>, added: seq<Event>, runId: Uuid)
    requires forall i :: 0 <= i < |added| ==> added[i].runId == runId
    ensures Of(events + added, runId) == Of(events, runId) + added
    ensures forall r: Uuid :: r != runId ==> Of(events + added, r) == Of(events, r)
  {
    OfConcat(events, added, runId);
    OfAll(added, runId);
    forall r: Uuid | r != runId ensures Of(events + added, r) == Of(events, r) {
      OfConcat(events, added, r);
      OfNone(added, r);
      assert Of(events, r) + [] == Of(events, r);
    }
  }

  lemma {:induction false} IncreasingConcat(a: seq<Event>, b: seq<Event>)
    requires SeqsIncrease(a) && SeqsIncrease(b)
    requires a != [] ==> forall i :: 0 <= i < |b| ==> b[i].seqNo > a[|a| - 1].seqNo
    ensures SeqsIncrease(a + b)
  {
  }

  lemma {:induction false} UploadKeepsRow(c: Config, s: System, runId: Uuid, done: Ledger, added: seq<Event>, batch: seq<Event>)
    requires ServerInvariant(c, s) && runId in s.server.runs && s.server.runs[runId].id == runId
    requires Extends(LedgerOf(s.server, runId), done, added, batch)
    ensures exists at :: ProjectedSince(done.run, s.store.runs[runId], c.workspaceId, Of(done.events, runId), at)
    ensures forall r :: SeqsIncrease(Of(done.events, r))
    ensures forall r: Uuid :: r != runId ==> Of(done.events, r) == AcceptedOf(s.server, r)
  {
    assert RowInvariant(c, s, runId);
    var local, accepted := s.store.runs[runId], AcceptedOf(s.server, runId);
    var at :| ProjectedSince(s.server.runs[runId], local, c.workspaceId, accepted, at);
    var base := NewRun(local, c.workspaceId, at);
    ProjectKeeps(base, accepted);
    AcceptedAfter(s.server.events, added, runId);
    ProjectConcat(base, accepted, added);
    IncreasingConcat(accepted, added);
    assert ProjectedSince(done.run, local, c.workspaceId, Of(done.events, runId), at);
    forall r ensures SeqsIncrease(Of(done.events, r)) {
      assert SeqsIncrease(AcceptedOf(s.server, r));
    }
  }

  lemma {:induction false} RowHasId(c: Config, s: System, runId: Uuid)
    requires StoreInvariant(s.store) && ServerInvariant(c, s) && runId in s.server.runs
    ensures s.server.runs[runId].id == runId && s.server.runs[runId].machineId == s.store.runs[runId].machineId
    ensures s.server.runs[runId].lastSeq ==
            if AcceptedOf(s.server, runId) == [] then 0
            else AcceptedOf(s.server, runId)[|AcceptedOf(s.server, runId)| - 1].seqNo
  {
    assert RunInvariant(s.store, runId) && RowInvariant(c, s, runId);
    var local, accepted := s.store.runs[runId], AcceptedOf(s.server, runId);
    var at :| ProjectedSince(s.server.runs[runId], local, c.workspaceId, accepted, at);
    ProjectKeeps(NewRun(local, c.workspaceId, at), accepted);
  }

  lemma {:induction false} UploadKeepsEvents(s: System, added: seq<Event>, after: System)
    requires EventsInvariant(s) && after.store == s.store
    requires after.server.events == s.server.events + added
    requires UniqueIds(after.server.events) && forall r :: SeqsIncrease(AcceptedOf(after.server, r))
    requires forall i :: 0 <= i < |added| ==> added[i] in EventsOf(s.store.rows) && IsInitialized(s.store, added[i].runId)
    ensures EventsInvariant(after)
  {
    forall i | 0 <= i < |after.server.events|
      ensures after.server.events[i] in EventsOf(after.store.rows) && IsInitialized(after.store, after.server.events[i].runId)
    {
      if i >= |s.server.events| {
        assert after.server.events[i] == added[i - |s.server.events|];
      } else {
        assert after.server.events[i] == s.server.events[i];
      }
    }
  }

  lemma {:induction false} UploadKeepsRows(c: Config, s: System, runId: Uuid, done: Ledger, after: System)
    requires RowsInvariant(c, s) && runId in s.server.runs && after.store == s.store
    requires after.server == Server(s.server.runs[runId := done.run], done.events)
    requires exists at :: ProjectedSince(done.run, s.store.runs[runId], c.workspaceId, Of(done.events, runId), at)
    requires forall r: Uuid :: r != runId ==> Of(done.events, r) == AcceptedOf(s.server, r)
    ensures RowsInvariant(c, after)
  {
    var at :| ProjectedSince(done.run, s.store.runs[runId], c.workspaceId, Of(done.events, runId), at);
    assert ProjectedSince(after.server.runs[runId], after.store.runs[runId], c.workspaceId, AcceptedOf(after.server, runId), at);
    forall r | r in after.server.runs ensures r in after.store.runs && RowInvariant(c, after, r) {
      if r != runId { RowUnmoved(c, s, after, r); }
    }
  }

  lemma {:induction false} UploadKeepsServer(c: Config, s: System, g: Group, after: System)
    requires StoreInvariant(s.store) && ServerInvariant(c, s) && GroupInvariant(s, g)
    requires s.store.runs[g.runId].remoteInitialized && Accepts(s.server, g.runId, g.batch)
    requires after.store == s.store && after.server == Uploaded(s.server, g.runId, g.batch)
    ensures ServerInvariant(c, after) && s.server.events <= after.server.events
    ensures s.server.runs.Keys <= after.server.runs.Keys
  {
    var runId := g.runId;
    RowHasId(c, s, runId);
    var added := UploadExtends(s.server, runId, g.batch);
    var done := IngestBatch(LedgerOf(s.server, runId), g.batch).value.ledger;
    AddedKeeps(c, s, g, done, added, after);
  }

  lemma {:induction false} AddedKeeps(c: Config, s: System, g: Group, done: Ledger, added: seq<Event>, after: System)
    requires ServerInvariant(c, s) && GroupInvariant(s, g) && IsInitialized(s.store, g.runId)
    requires s.server.runs[g.runId].id == g.runId && Extends(LedgerOf(s.server, g.runId), done, added, g.batch)
    requires after.store == s.store && after.server == Server(s.server.runs[g.runId := done.run], done.events)
    ensures ServerInvariant(c, after)
  {
    UploadKeepsRow(c, s, g.runId, done, added, g.batch);
    forall i | 0 <= i < |added| ensures added[i] in EventsOf(s.store.rows) && IsInitialized(s.store, added[i].runId) {
      assert added[i] in g.batch;
    }
    UploadKeepsEvents(s, added, after);
    UploadKeepsRows(c, s, g.runId, done, after);
  }

  /** The events of an accepted batch are the ones the server then holds. */
  lemma {:induction false} UploadHolds(c: Config, s: System, g: Group, e: Event)
    requires StoreInvariant(s.store) && ServerInvariant(c, s) && GroupInvariant(s, g)
    requires s.store.runs[g.runId].remoteInitialized && Accepts(s.server, g.runId, g.batch) && e in g.batch
    ensures e in Uploaded(s.server, g.runId, g.batch).events
  {
    var after := s.(server := Uploaded(s.server, g.runId, g.batch));
    UploadKeepsServer(c, s, g, after);
    var added := UploadExtends(s.server, g.runId, g.batch);
    var events := after.server.events;
    assert Known(events, s.server.runs[g.runId].id, e);
    var i :| 0 <= i < |events| && events[i].id == e.id;
    assert events[i] in EventsOf(s.store.rows);
    SameIdSameEvent(EventsOf(s.store.rows), events[i], e);
  }

  lemma SameIdSameEvent(es: seq<Event>, a: Event, b: Event)
    requires UniqueIds(es) && a in es && b in es && a.id == b.id
    ensures a == b
  {
  }
}
