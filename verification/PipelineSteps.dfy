/** Every step of the event pipeline keeps its invariant. */
module PipelineSteps {
  import opened Wrappers
  import opened Events
  import opened Ingest
  import opened IngestLaws
  import opened Queue
  import opened Sequences
  import opened Pipeline
  import opened PipelineInvariant

  // Groups.

  function Size(groups: seq<Group>): nat {
    if groups == [] then 0 else |groups[0].batch| + Size(groups[1..])
  }

  predicate DistinctRuns(groups: seq<Group>) {
    forall j, k :: 0 <= j < k < |groups| ==> groups[j].runId != groups[k].runId
  }

  predicate HasGroup(groups: seq<Group>, runId: Uuid) {
    exists i :: 0 <= i < |groups| && groups[i].runId == runId
  }

  function WithEvent(g: Group, e: Event): Group {
    if g.runId == e.runId then Group(e.runId, g.batch + [e]) else g
  }

  /** Where an event goes: to the end of its run's group, or to a new last group. */
  lemma {:induction false} AddToGroupIs(groups: seq<Group>, e: Event)
    requires DistinctRuns(groups)
    ensures var more := AddToGroup(groups, e);
            && Size(more) == Size(groups) + 1
            && |more| == (if HasGroup(groups, e.runId) then |groups| else |groups| + 1)
            && (!HasGroup(groups, e.runId) ==> more[|groups|] == Group(e.runId, [e]))
            && forall i :: 0 <= i < |groups| ==> more[i] == WithEvent(groups[i], e)
    decreases |groups|
  {
    if groups != [] {
      assert groups == [groups[0]] + groups[1..];
      if groups[0].runId != e.runId {
        AddToGroupIs(groups[1..], e);
        assert HasGroup(groups, e.runId) ==> HasGroup(groups[1..], e.runId) by {
          if HasGroup(groups, e.runId) {
            var i :| 0 <= i < |groups| && groups[i].runId == e.runId;
            assert groups[1..][i - 1].runId == e.runId;
          }
        }
        var more, rest := AddToGroup(groups, e), AddToGroup(groups[1..], e);
        assert more[1..] == rest;
        forall i | 0 <= i < |groups| ensures more[i] == WithEvent(groups[i], e) {
          if i > 0 { assert more[i] == rest[i - 1] && groups[i] == groups[1..][i - 1]; }
        }
      }
    }
  }

  predicate GroupSplits(g: Group, es: seq<Event>) {
    g.batch != [] && g.batch == Of(es, g.runId)
  }

  /** The groups split a list of events by run. */
  predicate Splits(groups: seq<Group>, es: seq<Event>) {
    && DistinctRuns(groups) && Size(groups) == |es|
    && (forall i :: 0 <= i < |groups| ==> GroupSplits(groups[i], es))
    && (forall i :: 0 <= i < |es| ==> HasGroup(groups, es[i].runId))
  }

  lemma {:induction false} WithEventSplits(g: Group, es: seq<Event>, e: Event)
    requires GroupSplits(g, es)
    ensures GroupSplits(WithEvent(g, e), es + [e])
  {
    OfSnoc(es, e, g.runId);
    assert g.batch + [] == g.batch;
  }

  lemma {:induction false} NewGroupSplits(groups: seq<Group>, es: seq<Event>, e: Event)
    requires Splits(groups, es) && !HasGroup(groups, e.runId)
    ensures GroupSplits(Group(e.runId, [e]), es + [e])
  {
    OfSnoc(es, e, e.runId);
    OfNone(es, e.runId);
    assert [] + [e] == [e];
  }

  lemma {:induction false} GroupsStay(groups: seq<Group>, e: Event, runId: Uuid)
    requires DistinctRuns(groups) && (HasGroup(groups, runId) || runId == e.runId)
    ensures HasGroup(AddToGroup(groups, e), runId)
  {
    AddToGroupIs(groups, e);
    var more := AddToGroup(groups, e);
    if HasGroup(groups, runId) {
      var k :| 0 <= k < |groups| && groups[k].runId == runId;
      assert more[k].runId == runId;
    } else {
      assert more[|groups|].runId == runId;
    }
  }

  lemma {:induction false} DistinctMore(groups: seq<Group>, e: Event)
    requires DistinctRuns(groups)
    ensures DistinctRuns(AddToGroup(groups, e)) && Size(AddToGroup(groups, e)) == Size(groups) + 1
  {
    var more := AddToGroup(groups, e);
    AddToGroupIs(groups, e);
    forall j, k | 0 <= j < k < |more| ensures more[j].runId != more[k].runId {
      assert more[j] == WithEvent(groups[j], e);
      if k < |groups| { assert more[k] == WithEvent(groups[k], e); }
    }
  }

  lemma {:induction false} GroupsSplitMore(groups: seq<Group>, es: seq<Event>, e: Event, i: nat)
    requires Splits(groups, es) && i < |AddToGroup(groups, e)|
    ensures GroupSplits(AddToGroup(groups, e)[i], es + [e])
  {
    AddToGroupIs(groups, e);
    if i < |groups| {
      WithEventSplits(groups[i], es, e);
    } else {
      NewGroupSplits(groups, es, e);
    }
  }

  lemma {:induction false} SplitsMore(groups: seq<Group>, es: seq<Event>, e: Event)
    requires Splits(groups, es)
    ensures Splits(AddToGroup(groups, e), es + [e])
  {
    DistinctMore(groups, e);
    forall i | 0 <= i < |AddToGroup(groups, e)| ensures GroupSplits(AddToGroup(groups, e)[i], es + [e]) {
      GroupsSplitMore(groups, es, e, i);
    }
    forall i | 0 <= i < |es + [e]| ensures HasGroup(AddToGroup(groups, e), (es + [e])[i].runId) {
      GroupsStay(groups, e, (es + [e])[i].runId);
    }
  }

  lemma {:induction false} GroupedSplits(es: seq<Event>)
    ensures Splits(Grouped(es), es)
    decreases |es|
  {
    if es != [] {
      InitAndLast(es);
      GroupedSplits(es[..|es| - 1]);
      SplitsMore(Grouped(es[..|es| - 1]), es[..|es| - 1], es[|es| - 1]);
    }
  }

  // Steps.

  /** Nothing that was logged, registered or accepted is lost. */
  ghost predicate Grows(s: System, t: System) {
    && EventsOf(s.store.rows) <= EventsOf(t.store.rows)
    && s.server.events <= t.server.events
    && s.server.runs.Keys <= t.server.runs.Keys
    && forall r :: r in s.store.runs ==>
         r in t.store.runs && SameIdentity(t.store.runs[r], s.store.runs[r])
         && (s.store.runs[r].remoteInitialized ==> t.store.runs[r].remoteInitialized)
  }

  lemma {:induction false} GroupStays(s: System, t: System, g: Group)
    requires GroupInvariant(s, g) && Grows(s, t)
    ensures GroupInvariant(t, g)
  {
    forall i | 0 <= i < |g.batch| ensures g.batch[i] in EventsOf(t.store.rows) {
      assert g.batch[i] in EventsOf(s.store.rows);
    }
  }

  lemma {:induction false} DrainerStays(s: System, t: System)
    requires DrainerInvariant(s) && Grows(s, t) && t.drainer == s.drainer
    ensures DrainerInvariant(t)
  {
    if s.drainer.Flushing? {
      forall i | 0 <= i < |s.drainer.groups| ensures GroupInvariant(t, s.drainer.groups[i]) {
        GroupStays(s, t, s.drainer.groups[i]);
      }
    }
  }

  ghost predicate FlagsInvariant(s: System) {
    forall r :: IsInitialized(s.store, r) ==> r in s.server.runs
  }

  /** One more row, and one run new or changed. */
  predicate OneMore(s: System, t: System, runId: Uuid, run: LocalRun, e: Event) {
    && t.server == s.server && t.drainer == s.drainer
    && t.store.rows == s.store.rows + [Row(e, false, 0, 0)] && t.store.runs == s.store.runs[runId := run]
    && (runId in s.store.runs ==>
          SameIdentity(run, s.store.runs[runId]) && run.remoteInitialized == s.store.runs[runId].remoteInitialized)
    && (runId !in s.store.runs ==> !run.remoteInitialized)
  }

  lemma {:induction false} OneMoreIsStoreOnly(s: System, t: System, runId: Uuid, run: LocalRun, e: Event)
    requires EventsInvariant(s) && FlagsInvariant(s) && OneMore(s, t, runId, run, e)
    ensures StoreOnly(s, t)
  {
    NewRowIsUndelivered(s, t, e);
    assert EventsOf(t.store.rows) == EventsOf(s.store.rows) + [e];
    forall r ensures IsInitialized(t.store, r) == IsInitialized(s.store, r) {
    }
  }

  lemma {:induction false} StoreOnlyGrows(s: System, t: System)
    requires StoreOnly(s, t)
    ensures Grows(s, t)
  {
    forall r | r in s.store.runs && s.store.runs[r].remoteInitialized ensures t.store.runs[r].remoteInitialized {
      assert IsInitialized(s.store, r);
    }
  }

  lemma {:induction false} OneMoreKeeps(c: Config, s: System, t: System, runId: Uuid, run: LocalRun, e: Event)
    requires Invariant(c, s) && StoreInvariant(t.store) && OneMore(s, t, runId, run, e)
    ensures Invariant(c, t) && Grows(s, t)
  {
    OneMoreIsStoreOnly(s, t, runId, run, e);
    StoreOnlyGrows(s, t);
    StoreChangeKeepsServer(c, s, t);
    DrainerStays(s, t);
  }

  lemma {:induction false} AppendStep(c: Config, s: System, step: Step)
    requires Invariant(c, s) && Enabled(c, s, step) && step.Append?
    ensures Invariant(c, Next(c, s, step)) && Grows(s, Next(c, s, step))
  {
    var t, runId := Next(c, s, step), step.runId;
    AppendKeepsStore(s.store, runId, step.kind, step.payload, step.at, step.eventId);
    var e := Event(step.eventId, runId, s.store.runs[runId].machineId, NextSeq(Log(s.store, runId)), step.kind, step.at, step.payload);
    OneMoreKeeps(c, s, t, runId, LocalApply(s.store.runs[runId], e), e);
  }

  lemma {:induction false} CreateStep(c: Config, s: System, step: Step)
    requires Invariant(c, s) && Enabled(c, s, step) && step.CreateRun?
    ensures Invariant(c, Next(c, s, step)) && Grows(s, Next(c, s, step))
  {
    var t, run := Next(c, s, step), step.run;
    CreateKeepsStore(s.store, run, step.payload, step.eventId);
    var e := Event(step.eventId, run.id, run.machineId, 1, RunCreated, run.updatedAt, step.payload);
    CreatedRow(s.store, run, step.payload, step.eventId, e);
    OneMoreKeeps(c, s, t, run.id, LocalApply(run, e), e);
  }

  lemma {:induction false} CreatedRow(store: Store, run: LocalRun, payload: Payload, id: Uuid, e: Event)
    requires StoreInvariant(store) && run.id !in store.runs
    requires e == Event(id, run.id, run.machineId, 1, RunCreated, run.updatedAt, payload)
    ensures Created(store, run, payload, id).rows == store.rows + [Row(e, false, 0, 0)]
    ensures Created(store, run, payload, id).runs == store.runs[run.id := LocalApply(run, e)]
  {
    forall i | 0 <= i < |EventsOf(store.rows)| ensures EventsOf(store.rows)[i].runId != run.id {
      assert store.rows[i].event.runId in store.runs;
    }
    OfNone(EventsOf(store.rows), run.id);
  }

  lemma {:induction false} NewRowIsUndelivered(s: System, t: System, e: Event)
    requires EventsInvariant(s) && t.store.rows == s.store.rows + [Row(e, false, 0, 0)]
    ensures forall i :: 0 <= i < |t.store.rows| && t.store.rows[i].delivered ==> t.store.rows[i].event in s.server.events
  {
  }

  /** Steps that mark rows. */
  lemma {:induction false} MarkedStore(c: Config, s: System, t: System)
    requires Invariant(c, s) && t.server == s.server
    requires EventsOf(t.store.rows) == EventsOf(s.store.rows) && t.store.runs == s.store.runs
    requires forall i :: 0 <= i < |t.store.rows| && t.store.rows[i].delivered ==> t.store.rows[i].event in s.server.events
    ensures StoreInvariant(t.store) && ServerInvariant(c, t) && Grows(s, t)
  {
    SameLogsKeepStore(s.store, t.store);
    StoreChangeKeepsServer(c, s, t);
  }

  lemma {:induction false} NextGroupStays(s: System, t: System, delivered: nat)
    requires DrainerInvariant(s) && Grows(s, t)
    requires s.drainer.Flushing? && s.drainer.groups != [] && t.drainer == NextGroup(s.drainer, delivered)
    ensures DrainerInvariant(t)
  {
    forall i | 0 <= i < |t.drainer.groups| ensures GroupInvariant(t, t.drainer.groups[i]) {
      GroupStays(s, t, s.drainer.groups[i + 1]);
    }
  }

  lemma {:induction false} DeliveredAreAccepted(c: Config, s: System, g: Group, i: nat)
    requires Invariant(c, s) && GroupInvariant(s, g) && i < |s.store.rows|
    requires forall k :: 0 <= k < |g.batch| ==> g.batch[k] in s.server.events
    requires Delivered(s.store, g.batch).rows[i].delivered
    ensures s.store.rows[i].event in s.server.events
  {
    var row := s.store.rows[i];
    if !row.delivered {
      var k :| 0 <= k < |g.batch| && g.batch[k].id == row.event.id;
      assert EventsOf(s.store.rows)[i] == row.event;
      SameIdSameEvent(EventsOf(s.store.rows), g.batch[k], row.event);
    }
  }

  lemma {:induction false} MarkDeliveredStep(c: Config, s: System, step: Step)
    requires Invariant(c, s) && Enabled(c, s, step) && step.MarkDelivered?
    ensures Invariant(c, Next(c, s, step)) && Grows(s, Next(c, s, step))
  {
    var t, g := Next(c, s, step), s.drainer.groups[0];
    MarkingKeepsLogs(s.store, g.batch, 0);
    forall i | 0 <= i < |t.store.rows| && t.store.rows[i].delivered ensures t.store.rows[i].event in s.server.events {
      DeliveredAreAccepted(c, s, g, i);
    }
    MarkedStore(c, s, t);
    NextGroupStays(s, t, |g.batch|);
  }

  lemma {:induction false} MarkFailedStep(c: Config, s: System, step: Step)
    requires Invariant(c, s) && Enabled(c, s, step) && step.MarkFailed?
    ensures Invariant(c, Next(c, s, step)) && Grows(s, Next(c, s, step))
  {
    var t, g := Next(c, s, step), s.drainer.groups[0];
    MarkingKeepsLogs(s.store, g.batch, step.now + Backoff(MostAttempts(s.store.rows, g.runId)));
    MarkedStore(c, s, t);
    NextGroupStays(s, t, 0);
  }

  lemma {:induction false} StartDrainStep(c: Config, s: System, step: Step)
    requires Invariant(c, s) && Enabled(c, s, step) && step.StartDrain?
    ensures Invariant(c, Next(c, s, step)) && Grows(s, Next(c, s, step))
  {
    MarkingKeepsLogs(s.store, [], 0);
    MarkedStore(c, s, Next(c, s, step));
  }

  lemma {:induction false} FetchStep(c: Config, s: System, step: Step)
    requires Invariant(c, s) && Enabled(c, s, step) && step.Fetch?
    ensures Invariant(c, Next(c, s, step)) && Grows(s, Next(c, s, step))
  {
    var t, pending := Next(c, s, step), Pending(s.store, c.batchSize, step.now);
    PendingIsFirstDue(s.store, c.batchSize, step.now);
    GroupedSplits(pending);
    forall i | 0 <= i < |t.drainer.groups| ensures GroupInvariant(t, t.drainer.groups[i]) {
      PendingGroup(s, pending, step.now, t.drainer.groups[i]);
    }
    MarkedStore(c, s, t);
  }

  lemma {:induction false} PendingGroup(s: System, pending: seq<Event>, now: nat, g: Group)
    requires StoreInvariant(s.store) && GroupSplits(g, pending)
    requires forall e :: e in pending ==> IsDue(s.store, now, e)
    ensures GroupInvariant(s, g)
  {
    OfMembers(pending, g.runId);
    assert g.batch[0] in pending;
    forall k | 0 <= k < |g.batch|
      ensures g.batch[k].runId == g.runId && g.runId in s.store.runs && g.batch[k] in EventsOf(s.store.rows)
    {
      assert g.batch[k] in pending;
      var i :| 0 <= i < |s.store.rows| && s.store.rows[i].event == g.batch[k];
      assert EventsOf(s.store.rows)[i] == g.batch[k];
    }
  }

  lemma {:induction false} FlagIsStoreOnly(s: System, t: System, runId: Uuid)
    requires EventsInvariant(s) && FlagsInvariant(s) && runId in s.store.runs && runId in s.server.runs
    requires t.server == s.server && t.store == Initialized(s.store, runId)
    ensures StoreOnly(s, t)
  {
    forall r | IsInitialized(t.store, r) ensures r in s.server.runs {
      assert r != runId ==> IsInitialized(s.store, r);
    }
  }

  lemma {:induction false} FlagKeepsStore(store: Store, runId: Uuid)
    requires StoreInvariant(store) && runId in store.runs
    ensures StoreInvariant(Initialized(store, runId))
  {
    SameLogsKeepStore(store, Initialized(store, runId));
  }

  lemma {:induction false} FlagSet(c: Config, s: System, t: System, runId: Uuid)
    requires Invariant(c, s) && t.server == s.server && runId in s.store.runs && runId in s.server.runs
    requires t.store == Initialized(s.store, runId)
    ensures StoreInvariant(t.store) && ServerInvariant(c, t) && Grows(s, t)
  {
    FlagKeepsStore(s.store, runId);
    FlagIsStoreOnly(s, t, runId);
    StoreOnlyGrows(s, t);
    StoreChangeKeepsServer(c, s, t);
  }

  lemma {:induction false} SameGroups(s: System, t: System)
    requires DrainerInvariant(s) && Grows(s, t) && s.drainer.Flushing? && t.drainer.Flushing?
    requires t.drainer.groups == s.drainer.groups
    ensures forall i :: 0 <= i < |t.drainer.groups| ==> GroupInvariant(t, t.drainer.groups[i])
  {
    forall i | 0 <= i < |t.drainer.groups| ensures GroupInvariant(t, t.drainer.groups[i]) {
      GroupStays(s, t, s.drainer.groups[i]);
    }
  }

  lemma {:induction false} MarkInitializedStep(c: Config, s: System, step: Step)
    requires Invariant(c, s) && Enabled(c, s, step) && step.MarkInitialized?
    ensures Invariant(c, Next(c, s, step)) && Grows(s, Next(c, s, step))
  {
    FlagSet(c, s, Next(c, s, step), s.drainer.groups[0].runId);
    SameGroups(s, Next(c, s, step));
  }

  lemma {:induction false} PutStep(c: Config, s: System, step: Step)
    requires Invariant(c, s) && Enabled(c, s, step) && step.Put?
    ensures Invariant(c, Next(c, s, step)) && Grows(s, Next(c, s, step))
  {
    var t, runId := Next(c, s, step), s.drainer.groups[0].runId;
    if step.fate.NotApplied? {
      MarkedStore(c, s, t);
    } else {
      PutKeepsServer(c, s, runId, step.at, t);
    }
    SameGroups(s, t);
  }

  lemma {:induction false} UploadHeld(c: Config, s: System, g: Group, t: System)
    requires StoreInvariant(s.store) && ServerInvariant(c, s) && GroupInvariant(s, g)
    requires s.store.runs[g.runId].remoteInitialized && Accepts(s.server, g.runId, g.batch)
    requires t.server == Uploaded(s.server, g.runId, g.batch)
    ensures forall i :: 0 <= i < |g.batch| ==> g.batch[i] in t.server.events
  {
    forall i | 0 <= i < |g.batch| ensures g.batch[i] in t.server.events {
      UploadHolds(c, s, g, g.batch[i]);
    }
  }

  lemma {:induction false} UploadStep(c: Config, s: System, step: Step)
    requires Invariant(c, s) && Enabled(c, s, step) && step.Upload?
    ensures Invariant(c, Next(c, s, step)) && Grows(s, Next(c, s, step))
  {
    var t, g := Next(c, s, step), s.drainer.groups[0];
    if step.fate.NotApplied? {
      MarkedStore(c, s, t);
    } else {
      UploadKeepsServer(c, s, g, t);
      UploadHeld(c, s, g, t);
    }
    SameGroups(s, t);
  }

  /** No step breaks the invariant or loses anything. */
  lemma {:induction false} StepKeeps(c: Config, s: System, step: Step)
    requires Invariant(c, s) && Enabled(c, s, step)
    ensures Invariant(c, Next(c, s, step)) && Grows(s, Next(c, s, step))
  {
    match step
    case CreateRun(_, _, _) => CreateStep(c, s, step);
    case Append(_, _, _, _, _) => AppendStep(c, s, step);
    case StartDrain(_, _) => StartDrainStep(c, s, step);
    case Fetch(_) => FetchStep(c, s, step);
    case Put(_, _) => PutStep(c, s, step);
    case MarkInitialized => MarkInitializedStep(c, s, step);
    case Upload(_) => UploadStep(c, s, step);
    case MarkDelivered => MarkDeliveredStep(c, s, step);
    case MarkFailed(_) => MarkFailedStep(c, s, step);
    case SkipPut => MarkedStore(c, s, Next(c, s, step));
    case EndFlush => MarkedStore(c, s, Next(c, s, step));
    case Crash => MarkedStore(c, s, Next(c, s, step));
  }
}
