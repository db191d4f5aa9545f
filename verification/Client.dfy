/**
 The client's side of the pipeline as it runs (cli/src/runbuoy/networking/client.py:
 flush_pending, drain_pending; cli/src/runbuoy/cli/app.py: sync).  Every call made
 here is a history of the pipeline's state machine, returned as a ghost result.
 What a request does, and the clock, are not determined.
 */
module Client {
  import opened Wrappers
  import opened Events
  import opened Ingest
  import opened IngestLaws
  import opened Queue
  import opened Sequences
  import opened Pipeline
  import opened PipelineInvariant
  import opened PipelineSteps
  import opened PipelineTheorems
  import opened PipelinePrefix

  /** The server as the client sees it: a request may fail, also after it has been applied. */
  class RemoteServer {
    var runs: map<Uuid, Run>
    var events: seq<Event>

    function View(): Server
      reads this
    {
      Server(runs, events)
    }

    constructor ()
      ensures View() == Server(map[], [])
    {
      runs := map[];
      events := [];
    }

    method PutRun(run: LocalRun, workspaceId: string, at: int) returns (fate: Fate)
      modifies this
      ensures fate.NotApplied? || Upsert(old(View()), run, workspaceId, at).Ok?
      ensures View() == if fate.NotApplied? then old(View()) else Upsert(old(View()), run, workspaceId, at).value
    {
      fate := *;
      match Upsert(View(), run, workspaceId, at)
      case Err(_) => fate := NotApplied;
      case Ok(after) =>
        if fate != NotApplied {
          runs, events := after.runs, after.events;
        }
    }

    method PostEvents(runId: Uuid, batch: seq<Event>) returns (fate: Fate)
      modifies this
      ensures fate.NotApplied? || Accepts(old(View()), runId, batch)
      ensures View() == if fate.NotApplied? then old(View()) else Uploaded(old(View()), runId, batch)
    {
      fate := *;
      if fate == NotApplied || !Accepts(View(), runId, batch) {
        return NotApplied;
      }
      var after := Uploaded(View(), runId, batch);
      runs, events := after.runs, after.events;
    }
  }

  method Clock() returns (now: nat) {
    var t: int := *;
    now := if t < 0 then 0 else t;
  }

  // Histories.

  lemma {:induction false} HistoryConcat(c: Config, s: System, a: seq<Step>, b: seq<Step>)
    requires Possible(c, s, a) && Possible(c, After(c, s, a), b)
    ensures Possible(c, s, a + b) && After(c, s, a + b) == After(c, After(c, s, a), b)
    decreases |a|
  {
    if a == [] {
      assert a + b == b;
    } else {
      assert (a + b)[1..] == a[1..] + b;
      HistoryConcat(c, Next(c, s, a[0]), a[1..], b);
    }
  }

  lemma OneStepHistory(c: Config, s: System, step: Step)
    requires Enabled(c, s, step)
    ensures Possible(c, s, [step]) && After(c, s, [step]) == Next(c, s, step)
  {
    assert [step][1..] == [];
  }

  lemma {:induction false} OneMoreStep(c: Config, s: System, steps: seq<Step>, step: Step)
    requires Possible(c, s, steps) && Enabled(c, After(c, s, steps), step)
    ensures Possible(c, s, steps + [step]) && After(c, s, steps + [step]) == Next(c, After(c, s, steps), step)
  {
    OneStepHistory(c, After(c, s, steps), step);
    HistoryConcat(c, s, steps, [step]);
  }

  /** The events that are still to be delivered. */
  ghost function Undelivered(store: Store): set<Event> {
    set i | 0 <= i < |store.rows| && !store.rows[i].delivered :: store.rows[i].event
  }

  ghost function Elements(es: seq<Event>): set<Event> {
    set e | e in es
  }

  predicate NoFailure(steps: seq<Step>) {
    forall i :: 0 <= i < |steps| ==> !steps[i].MarkFailed?
  }

  lemma {:induction false} DeliveredLeave(store: Store, batch: seq<Event>)
    requires UniqueIds(EventsOf(store.rows)) && forall e :: e in batch ==> e in EventsOf(store.rows)
    ensures Undelivered(Delivered(store, batch)) == Undelivered(store) - Elements(batch)
  {
    var after := Delivered(store, batch);
    forall i | 0 <= i < |store.rows| ensures HasEventId(batch, store.rows[i].event.id) == (store.rows[i].event in batch) {
      var e := store.rows[i].event;
      assert EventsOf(store.rows)[i] == e;
      if HasEventId(batch, e.id) {
        var k :| 0 <= k < |batch| && batch[k].id == e.id;
        SameIdSameEvent(EventsOf(store.rows), batch[k], e);
      }
    }
    forall e ensures e in Undelivered(after) <==> e in Undelivered(store) - Elements(batch) {
      if e in Undelivered(store) - Elements(batch) {
        var i :| 0 <= i < |store.rows| && !store.rows[i].delivered && store.rows[i].event == e;
        assert after.rows[i].event == e && !after.rows[i].delivered;
      }
      if e in Undelivered(after) {
        var i :| 0 <= i < |after.rows| && !after.rows[i].delivered && after.rows[i].event == e;
        assert store.rows[i].event == e && !store.rows[i].delivered;
      }
    }
  }

  lemma {:induction false} FailedStay(store: Store, batch: seq<Event>, retryAt: nat)
    ensures Undelivered(FailedRows(store, batch, retryAt)) == Undelivered(store)
    ensures Undelivered(RetriedAll(store)) == Undelivered(store)
  {
    var failed, retried := FailedRows(store, batch, retryAt), RetriedAll(store);
    forall i | 0 <= i < |store.rows|
      ensures failed.rows[i].event == store.rows[i].event == retried.rows[i].event
              && failed.rows[i].delivered == store.rows[i].delivered == retried.rows[i].delivered
    {
    }
    assert |failed.rows| == |store.rows| == |retried.rows|;
  }

  /** The keys of the local tables: event ids are unique, and the run of an event exists. */
  predicate Keyed(store: Store) {
    && UniqueIds(EventsOf(store.rows))
    && forall i :: 0 <= i < |store.rows| ==> store.rows[i].event.runId in store.runs
  }

  predicate SameKeys(a: Store, b: Store) {
    EventsOf(a.rows) == EventsOf(b.rows) && a.runs.Keys == b.runs.Keys
  }

  // One group.

  /** The rows of a group and its run are there. */
  predicate Filed(store: Store, g: Group) {
    g.runId in store.runs && UniqueIds(EventsOf(store.rows)) && forall e :: e in g.batch ==> e in EventsOf(store.rows)
  }

  /** A flush is at some stage of its first group. */
  predicate AtGroup(store: Store, d: Drainer, stage: Stage, g: Group) {
    d.Flushing? && d.stage == stage && d.groups != [] && d.groups[0] == g && Filed(store, g)
  }

  method Register(c: Config, queue: EventQueue, server: RemoteServer, g: Group, ghost d: Drainer) returns (ok: bool, ghost steps: seq<Step>)
    requires AtGroup(queue.View(), d, Begin, g)
    modifies queue, server
    ensures var s := System(old(queue.View()), old(server.View()), d);
            && Possible(c, s, steps) && NoFailure(steps)
            && After(c, s, steps) == System(queue.View(), server.View(), d.(stage := if ok then Registered else Failed))
    ensures queue.rows == old(queue.rows) && SameKeys(queue.View(), old(queue.View()))
  {
    var run := queue.runs[g.runId];
    ghost var s := System(queue.View(), server.View(), d);
    if run.remoteInitialized {
      steps := [SkipPut];
      OneStepHistory(c, s, SkipPut);
      return true, steps;
    }
    var at: int := *;
    var fate := server.PutRun(run, c.workspaceId, at);
    steps := [Put(fate, at)];
    OneStepHistory(c, s, Put(fate, at));
    if fate != Applied {
      return false, steps;
    }
    queue.MarkRemoteInitialized(g.runId);
    OneMoreStep(c, s, steps, Step.MarkInitialized);
    steps := steps + [Step.MarkInitialized];
    return true, steps;
  }

  method Upload(c: Config, queue: EventQueue, server: RemoteServer, g: Group, ghost d: Drainer) returns (ok: bool, ghost steps: seq<Step>)
    requires AtGroup(queue.View(), d, Begin, g)
    modifies queue, server
    ensures var s := System(old(queue.View()), old(server.View()), d);
            && Possible(c, s, steps) && NoFailure(steps)
            && After(c, s, steps) == System(queue.View(), server.View(), d.(stage := if ok then UploadAnswered else Failed))
    ensures queue.rows == old(queue.rows) && SameKeys(queue.View(), old(queue.View()))
  {
    ghost var s := System(queue.View(), server.View(), d);
    ok, steps := Register(c, queue, server, g, d);
    if !ok {
      return;
    }
    var fate := server.PostEvents(g.runId, g.batch);
    OneMoreStep(c, s, steps, Step.Upload(fate));
    steps := steps + [Step.Upload(fate)];
    ok := fate == Applied;
  }

  method MarkGroup(c: Config, queue: EventQueue, server: RemoteServer, g: Group, ok: bool, ghost d: Drainer) returns (ghost step: Step)
    requires AtGroup(queue.View(), d, if ok then UploadAnswered else Failed, g)
    modifies queue
    ensures var s := System(old(queue.View()), server.View(), d);
            && Enabled(c, s, step) && step.MarkFailed? == !ok
            && Next(c, s, step) == System(queue.View(), server.View(), NextGroup(d, if ok then |g.batch| else 0))
    ensures Undelivered(queue.View()) == Undelivered(old(queue.View())) - if ok then Elements(g.batch) else {}
    ensures SameKeys(queue.View(), old(queue.View()))
  {
    if ok {
      DeliveredLeave(queue.View(), g.batch);
      MarkingKeepsLogs(queue.View(), g.batch, 0);
      queue.MarkDelivered(g.batch);
      step := Step.MarkDelivered;
    } else {
      var now := Clock();
      var delay := Backoff(MostAttempts(queue.rows, g.runId));
      FailedStay(queue.View(), g.batch, now + delay);
      MarkingKeepsLogs(queue.View(), g.batch, now + delay);
      queue.MarkFailed(g.batch, now, delay);
      step := Step.MarkFailed(now);
    }
  }

  /** A history from s to t, with one more step to u. */
  lemma {:induction false} Reached(c: Config, s: System, steps: seq<Step>, t: System, step: Step, u: System)
    requires Possible(c, s, steps) && After(c, s, steps) == t && Enabled(c, t, step) && Next(c, t, step) == u
    ensures Possible(c, s, steps + [step]) && After(c, s, steps + [step]) == u
    ensures NoFailure(steps + [step]) == (NoFailure(steps) && !step.MarkFailed?)
  {
    OneMoreStep(c, s, steps, step);
    NoFailureSnoc(steps, step);
  }

  /** The body of the loop of `flush_pending`. */
  method FlushGroup(c: Config, queue: EventQueue, server: RemoteServer, g: Group, ghost d: Drainer) returns (ok: bool, ghost steps: seq<Step>)
    requires AtGroup(queue.View(), d, Begin, g)
    modifies queue, server
    ensures var s := System(old(queue.View()), old(server.View()), d);
            && Possible(c, s, steps) && ok == NoFailure(steps)
            && After(c, s, steps) == System(queue.View(), server.View(), NextGroup(d, if ok then |g.batch| else 0))
    ensures Undelivered(queue.View()) == Undelivered(old(queue.View())) - if ok then Elements(g.batch) else {}
    ensures SameKeys(queue.View(), old(queue.View()))
  {
    ghost var s := System(queue.View(), server.View(), d);
    ok, steps := Upload(c, queue, server, g, d);
    ghost var d' := d.(stage := if ok then UploadAnswered else Failed);
    ghost var t := System(queue.View(), server.View(), d');
    ghost var step := MarkGroup(c, queue, server, g, ok, d');
    Reached(c, s, steps, t, step, System(queue.View(), server.View(), NextGroup(d', if ok then |g.batch| else 0)));
    steps := steps + [step];
  }

  lemma NoFailureSnoc(steps: seq<Step>, step: Step)
    ensures NoFailure(steps + [step]) == (NoFailure(steps) && !step.MarkFailed?)
  {
    var more := steps + [step];
    assert more[|steps|] == step;
    assert forall i :: 0 <= i < |steps| ==> more[i] == steps[i];
  }

  lemma NoFailureConcat(a: seq<Step>, b: seq<Step>)
    ensures NoFailure(a + b) == (NoFailure(a) && NoFailure(b))
  {
    assert forall i :: 0 <= i < |a| ==> (a + b)[i] == a[i];
    assert forall i :: 0 <= i < |b| ==> (a + b)[|a| + i] == b[i];
  }

  // Pending events are distinct.

  lemma {:induction false} DueIsUnique(rows: seq<Row>, now: nat)
    requires UniqueIds(EventsOf(rows))
    ensures UniqueIds(DueEvents(rows, now))
    decreases |rows|
  {
    if rows != [] {
      var n := |rows| - 1;
      assert EventsOf(rows[..n]) == EventsOf(rows)[..n];
      DueIsUnique(rows[..n], now);
      DueEventsAre(rows[..n], now);
      forall e | e in DueEvents(rows[..n], now) ensures e.id != rows[n].event.id {
        var i :| 0 <= i < n && rows[..n][i].event == e;
        assert EventsOf(rows)[i].id != EventsOf(rows)[n].id;
      }
    }
  }

  lemma UniqueSnoc(es: seq<Event>, e: Event)
    requires UniqueIds(es) && forall x :: x in es ==> x.id != e.id
    ensures UniqueIds(es + [e])
  {
  }

  lemma {:induction false} InsertedIsUnique(es: seq<Event>, e: Event)
    requires UniqueIds(es) && forall x :: x in es ==> x.id != e.id
    ensures UniqueIds(Inserted(es, e))
    decreases |es|
  {
    if es == [] || Precedes(es[|es| - 1], e) {
      UniqueSnoc(es, e);
    } else {
      var n := |es| - 1;
      InsertedIsUnique(es[..n], e);
      InsertedMembers(es[..n], e);
      forall x | x in Inserted(es[..n], e) ensures x.id != es[n].id {
        assert x in multiset(Inserted(es[..n], e));
        assert x == e || x in multiset(es[..n]);
      }
      UniqueSnoc(Inserted(es[..n], e), es[n]);
    }
  }

  lemma {:induction false} OrderedIsUnique(es: seq<Event>)
    requires UniqueIds(es)
    ensures UniqueIds(OrderedByRun(es))
    decreases |es|
  {
    if es != [] {
      var n := |es| - 1;
      OrderedIsUnique(es[..n]);
      OrderedByRunOrders(es[..n]);
      var ordered := OrderedByRun(es[..n]);
      forall x | x in ordered ensures x.id != es[n].id {
        assert x in multiset(ordered);
        assert x in es[..n];
      }
      InsertedIsUnique(ordered, es[n]);
    }
  }

  lemma {:induction false} OfIsUnique(es: seq<Event>, runId: Uuid)
    requires UniqueIds(es)
    ensures UniqueIds(Of(es, runId))
    decreases |es|
  {
    if es != [] {
      var n := |es| - 1;
      OfIsUnique(es[..n], runId);
      OfMembers(es[..n], runId);
    }
  }

  lemma {:induction false} PendingIsUnique(store: Store, limit: nat, now: nat)
    requires UniqueIds(EventsOf(store.rows))
    ensures UniqueIds(Pending(store, limit, now))
  {
    DueIsUnique(store.rows, now);
    OrderedIsUnique(DueEvents(store.rows, now));
  }

  // A flush.

  /** The events of the groups from the k-th on. */
  ghost function InGroups(groups: seq<Group>): set<Event> {
    set g, e | g in groups && e in g.batch :: e
  }

  /** Every pending event is in exactly one of the groups, once. */
  lemma {:induction false} GroupsHold(groups: seq<Group>, pending: seq<Event>)
    requires Splits(groups, pending)
    ensures InGroups(groups) == Elements(pending)
  {
    forall e ensures e in InGroups(groups) <==> e in pending {
      if e in InGroups(groups) {
        var i :| 0 <= i < |groups| && e in groups[i].batch;
        OfMembers(pending, groups[i].runId);
      }
      if e in pending {
        var k :| 0 <= k < |pending| && pending[k] == e;
        var i :| 0 <= i < |groups| && groups[i].runId == e.runId;
        OfMembers(pending, groups[i].runId);
        assert GroupSplits(groups[i], pending);
        assert groups[i] in groups && e in groups[i].batch;
      }
    }
  }

  lemma {:induction false} GroupIsFiled(store: Store, limit: nat, now: nat, g: Group)
    requires Keyed(store) && GroupSplits(g, Pending(store, limit, now))
    ensures Filed(store, g)
  {
    var pending := Pending(store, limit, now);
    PendingIsFirstDue(store, limit, now);
    OfMembers(pending, g.runId);
    forall e | e in g.batch ensures g.runId in store.runs && e in EventsOf(store.rows) {
      var i :| 0 <= i < |store.rows| && store.rows[i].event == e;
      assert EventsOf(store.rows)[i] == e;
    }
    assert g.batch[0] in g.batch;
  }

  /** The events of a group are of its run, distinct and undelivered. */
  ghost predicate ToDeliver(store: Store, g: Group) {
    && g.batch != [] && UniqueIds(g.batch) && Elements(g.batch) <= Undelivered(store)
    && forall e :: e in g.batch ==> e.runId == g.runId
  }

  lemma {:induction false} GroupIsToDeliver(store: Store, limit: nat, now: nat, g: Group)
    requires Keyed(store) && GroupSplits(g, Pending(store, limit, now))
    ensures ToDeliver(store, g)
  {
    var pending := Pending(store, limit, now);
    PendingIsFirstDue(store, limit, now);
    PendingIsUnique(store, limit, now);
    OfIsUnique(pending, g.runId);
    OfMembers(pending, g.runId);
    forall e | e in g.batch ensures e in Undelivered(store) {
      var i :| 0 <= i < |store.rows| && store.rows[i].event == e && !store.rows[i].delivered;
    }
  }

  /** How far a flush of a batch has come. */
  ghost predicate FlushedTo(c: Config, s: System, steps: seq<Step>, t: System, groups: seq<Group>, i: nat, total: nat)
    requires i <= |groups| && t.drainer.Flushing?
  {
    && Possible(c, s, steps) && After(c, s, steps) == t
    && t.drainer.groups == groups[i..] && t.drainer.stage == Begin
    && Counts(s.store, steps, t.store, t.drainer.delivered, groups, i, total)
  }

  ghost predicate Counts(before: Store, steps: seq<Step>, store: Store, delivered: nat, groups: seq<Group>, i: nat, total: nat)
    requires i <= |groups|
  {
    && |Undelivered(before)| == |Undelivered(store)| + delivered
    && delivered + Size(groups[i..]) <= total
    && (delivered + Size(groups[i..]) == total <==> NoFailure(steps))
    && (NoFailure(steps) ==> Undelivered(store) == Undelivered(before) - InGroups(groups[..i]))
    && forall k :: i <= k < |groups| ==> ToDeliver(store, groups[k])
  }

  lemma {:induction false} UniqueElements(es: seq<Event>)
    requires UniqueIds(es)
    ensures |Elements(es)| == |es|
    decreases |es|
  {
    if es != [] {
      var n := |es| - 1;
      UniqueElements(es[..n]);
      InitAndLast(es);
      assert Elements(es) == Elements(es[..n]) + {es[n]};
      assert es[n] !in es[..n];
    }
  }

  lemma {:induction false} CountsOneMore(before: Store, steps: seq<Step>, store: Store, delivered: nat, groups: seq<Group>, i: nat, total: nat,
                                         more: seq<Step>, after: Store, ok: bool)
    requires i < |groups| && DistinctRuns(groups) && Counts(before, steps, store, delivered, groups, i, total)
    requires ok == NoFailure(more)
    requires Undelivered(after) == Undelivered(store) - if ok then Elements(groups[i].batch) else {}
    ensures Counts(before, steps + more, after, delivered + if ok then |groups[i].batch| else 0, groups, i + 1, total)
  {
    var g := groups[i];
    NoFailureConcat(steps, more);
    InGroupsSnoc(groups, i);
    assert groups[i..][0] == g && groups[i..][1..] == groups[i + 1..];
    assert ToDeliver(store, g);
    UniqueElements(g.batch);
    assert |Undelivered(store) - Elements(g.batch)| == |Undelivered(store)| - |Elements(g.batch)|;
    forall k | i + 1 <= k < |groups| ensures ToDeliver(after, groups[k]) {
      assert ToDeliver(store, groups[k]);
      assert forall e :: e in groups[k].batch ==> e !in g.batch;
    }
  }

  lemma {:induction false} FlushedOneMore(c: Config, s: System, steps: seq<Step>, t: System, groups: seq<Group>, i: nat, total: nat,
                                          more: seq<Step>, u: System, ok: bool)
    requires i < |groups| && DistinctRuns(groups) && t.drainer.Flushing? && FlushedTo(c, s, steps, t, groups, i, total)
    requires t.drainer.groups != []
    requires Possible(c, t, more) && After(c, t, more) == u && ok == NoFailure(more)
    requires u.drainer == NextGroup(t.drainer, if ok then |groups[i].batch| else 0)
    requires Undelivered(u.store) == Undelivered(t.store) - if ok then Elements(groups[i].batch) else {}
    ensures FlushedTo(c, s, steps + more, u, groups, i + 1, total)
  {
    HistoryConcat(c, s, steps, more);
    CountsOneMore(s.store, steps, t.store, t.drainer.delivered, groups, i, total, more, u.store, ok);
    assert groups[i..][1..] == groups[i + 1..];
  }

  /**
   `flush_pending`: what it leaves undelivered, and how the number it returns relates to
   the number of events that were pending.
   */
  method FlushPending(c: Config, queue: EventQueue, server: RemoteServer, now: nat, ghost budget: Option<nat>)
    returns (delivered: nat, ghost steps: seq<Step>)
    requires Keyed(queue.View())
    modifies queue, server
    ensures SameKeys(queue.View(), old(queue.View()))
    ensures var s := System(old(queue.View()), old(server.View()), Fetching(budget));
            && Possible(c, s, steps)
            && After(c, s, steps) == System(queue.View(), server.View(), Flushing([], Begin, delivered, LessOne(budget)))
    ensures |Undelivered(old(queue.View()))| == |Undelivered(queue.View())| + delivered
    ensures delivered <= |Pending(old(queue.View()), c.batchSize, now)|
    ensures delivered == |Pending(old(queue.View()), c.batchSize, now)| <==> NoFailure(steps)
    ensures NoFailure(steps) ==>
              Undelivered(queue.View()) ==
              Undelivered(old(queue.View())) - Elements(Pending(old(queue.View()), c.batchSize, now))
  {
    ghost var s := System(queue.View(), server.View(), Fetching(budget));
    var events := Pending(queue.View(), c.batchSize, now);
    var grouped := Grouped(events);
    FlushStarts(c, s, now);
    ghost var t := System(queue.View(), server.View(), Flushing(grouped, Begin, 0, LessOne(budget)));
    ghost var u;
    delivered, steps, u := FlushGroups(c, queue, server, s, grouped, |events|, [Fetch(now)], t);
    FlushEnds(c, s, steps, u, now);
  }

  /** The loop of `flush_pending`. */
  method FlushGroups(c: Config, queue: EventQueue, server: RemoteServer, ghost s: System, groups: seq<Group>,
                     ghost total: nat, ghost before: seq<Step>, ghost start: System)
    returns (delivered: nat, ghost steps: seq<Step>, ghost t: System)
    requires DistinctRuns(groups) && forall i :: 0 <= i < |groups| ==> Filed(s.store, groups[i])
    requires (start.store, start.server) == (queue.View(), server.View())
    requires start.drainer.Flushing? && start.drainer.delivered == 0
    requires FlushedTo(c, s, before, start, groups, 0, total) && SameKeys(queue.View(), s.store)
    modifies queue, server
    ensures t == System(queue.View(), server.View(), Flushing([], Begin, delivered, start.drainer.budget))
    ensures FlushedTo(c, s, steps, t, groups, |groups|, total) && SameKeys(queue.View(), s.store)
  {
    steps, t := before, start;
    delivered := 0;
    for i := 0 to |groups|
      invariant t.drainer.Flushing? && t.drainer.delivered == delivered && t.drainer.budget == start.drainer.budget
      invariant (t.store, t.server) == (queue.View(), server.View())
      invariant FlushedTo(c, s, steps, t, groups, i, total) && SameKeys(queue.View(), s.store)
    {
      var ok;
      ok, steps, t := FlushNext(c, queue, server, s, groups, i, total, steps, t);
      if ok {
        delivered := delivered + |groups[i].batch|;
      }
    }
  }

  /** One group of a flush. */
  method FlushNext(c: Config, queue: EventQueue, server: RemoteServer, ghost s: System, groups: seq<Group>, i: nat,
                   ghost total: nat, ghost before: seq<Step>, ghost t: System)
    returns (ok: bool, ghost steps: seq<Step>, ghost u: System)
    requires i < |groups| && DistinctRuns(groups) && Filed(s.store, groups[i])
    requires (t.store, t.server) == (queue.View(), server.View()) && t.drainer.Flushing?
    requires FlushedTo(c, s, before, t, groups, i, total) && SameKeys(queue.View(), s.store)
    modifies queue, server
    ensures u == System(queue.View(), server.View(), NextGroup(t.drainer, if ok then |groups[i].batch| else 0))
    ensures FlushedTo(c, s, steps, u, groups, i + 1, total) && SameKeys(queue.View(), s.store)
  {
    assert groups[i..][0] == groups[i] && groups[i..][1..] == groups[i + 1..];
    ghost var more;
    ok, more := FlushGroup(c, queue, server, groups[i], t.drainer);
    u := System(queue.View(), server.View(), NextGroup(t.drainer, if ok then |groups[i].batch| else 0));
    FlushedOneMore(c, s, before, t, groups, i, total, more, u, ok);
    steps := before + more;
  }

  lemma {:induction false} FlushStarts(c: Config, s: System, now: nat)
    requires s.drainer.Fetching? && Keyed(s.store)
    ensures var events := Pending(s.store, c.batchSize, now);
            var grouped := Grouped(events);
            && FlushedTo(c, s, [Fetch(now)], s.(drainer := Flushing(grouped, Begin, 0, LessOne(s.drainer.budget))), grouped, 0, |events|)
            && DistinctRuns(grouped) && grouped[0..] == grouped
            && forall i :: 0 <= i < |grouped| ==> Filed(s.store, grouped[i])
  {
    var events := Pending(s.store, c.batchSize, now);
    var grouped := Grouped(events);
    GroupedSplits(events);
    OneStepHistory(c, s, Fetch(now));
    assert grouped[0..] == grouped && grouped[..0] == [];
    assert Undelivered(s.store) - InGroups([]) == Undelivered(s.store);
    forall k | 0 <= k < |grouped| ensures ToDeliver(s.store, grouped[k]) && Filed(s.store, grouped[k]) {
      GroupIsToDeliver(s.store, c.batchSize, now, grouped[k]);
      GroupIsFiled(s.store, c.batchSize, now, grouped[k]);
    }
  }

  lemma {:induction false} FlushEnds(c: Config, s: System, steps: seq<Step>, t: System, now: nat)
    requires t.drainer.Flushing?
    requires var events := Pending(s.store, c.batchSize, now);
             FlushedTo(c, s, steps, t, Grouped(events), |Grouped(events)|, |events|)
    ensures var events := Pending(s.store, c.batchSize, now);
            && t.drainer.groups == []
            && |Undelivered(s.store)| == |Undelivered(t.store)| + t.drainer.delivered
            && t.drainer.delivered <= |events| && (t.drainer.delivered == |events| <==> NoFailure(steps))
            && (NoFailure(steps) ==> Undelivered(t.store) == Undelivered(s.store) - Elements(events))
  {
    var events := Pending(s.store, c.batchSize, now);
    var grouped := Grouped(events);
    GroupedSplits(events);
    GroupsHold(grouped, events);
    assert grouped[..|grouped|] == grouped && grouped[|grouped|..] == [];
  }

  lemma {:induction false} InGroupsSnoc(groups: seq<Group>, i: nat)
    requires i < |groups|
    ensures InGroups(groups[..i + 1]) == InGroups(groups[..i]) + Elements(groups[i].batch)
  {
    assert groups[..i + 1] == groups[..i] + [groups[i]];
  }

  // A drain.

  lemma {:induction false} NoFailureNoBackoff(c: Config, s: System, steps: seq<Step>)
    requires Possible(c, s, steps) && NoFailure(steps) && NoBackoff(s.store)
    ensures NoBackoff(After(c, s, steps).store)
    decreases |steps|
  {
    if steps != [] {
      assert forall i :: 0 <= i < |steps[1..]| ==> steps[1..][i] == steps[i + 1];
      assert NoBackoff(Next(c, s, steps[0]).store);
      NoFailureNoBackoff(c, Next(c, s, steps[0]), steps[1..]);
    }
  }

  /** A batch that is not full has everything, if no row backs off. */
  lemma {:induction false} ShortBatchIsAll(store: Store, limit: nat, now: nat)
    requires NoBackoff(store) && |Pending(store, limit, now)| < limit
    ensures Undelivered(store) <= Elements(Pending(store, limit, now))
  {
    DueInOrder(store, now);
    forall e | e in Undelivered(store) ensures e in Pending(store, limit, now) {
      var i :| 0 <= i < |store.rows| && !store.rows[i].delivered && store.rows[i].event == e;
      assert IsDue(store, now, e);
    }
  }

  lemma {:induction false} PendingCountIs(rows: seq<Row>, runs: map<Uuid, LocalRun>)
    requires UniqueIds(EventsOf(rows))
    ensures PendingCount(rows) == |Undelivered(Store(runs, rows))|
    decreases |rows|
  {
    if rows != [] {
      var n := |rows| - 1;
      assert EventsOf(rows[..n]) == EventsOf(rows)[..n];
      PendingCountIs(rows[..n], runs);
      UndeliveredSnoc(rows, runs);
    }
  }

  lemma {:induction false} UndeliveredSnoc(rows: seq<Row>, runs: map<Uuid, LocalRun>)
    requires rows != [] && UniqueIds(EventsOf(rows))
    ensures var n := |rows| - 1;
            && rows[n].event !in Undelivered(Store(runs, rows[..n]))
            && Undelivered(Store(runs, rows)) ==
               Undelivered(Store(runs, rows[..n])) + if rows[n].delivered then {} else {rows[n].event}
  {
    var n := |rows| - 1;
    var init := Store(runs, rows[..n]);
    forall e | e in Undelivered(init) ensures e.id != rows[n].event.id {
      var i :| 0 <= i < n && rows[..n][i].event == e;
      assert EventsOf(rows)[i].id != EventsOf(rows)[n].id;
    }
    forall e ensures e in Undelivered(Store(runs, rows)) <==> e in Undelivered(init) || (e == rows[n].event && !rows[n].delivered) {
      if e in Undelivered(init) {
        var i :| 0 <= i < n && !rows[..n][i].delivered && rows[..n][i].event == e;
        assert rows[i].event == e && !rows[i].delivered;
      }
      if e in Undelivered(Store(runs, rows)) {
        var i :| 0 <= i < |rows| && !rows[i].delivered && rows[i].event == e;
        assert i < n ==> rows[..n][i] == rows[i];
      }
    }
  }

  /** The batches that may still be taken. */
  function Left(budget: Option<nat>, taken: nat): Option<nat>
    requires budget.Some? ==> taken <= budget.value
  {
    match budget
    case Some(n) => Some(n - taken)
    case None => None
  }

  ghost predicate Drained(c: Config, s: System, steps: seq<Step>, t: System, delivered: nat) {
    && Possible(c, s, steps) && After(c, s, steps) == t
    && |Undelivered(s.store)| == |Undelivered(t.store)| + delivered
  }

  lemma NothingDrained(c: Config, s: System)
    ensures Drained(c, s, [], s, 0)
  {
  }

  /** One round of the loop of `drain_pending`. */
  lemma {:induction false} DrainedOneMore(c: Config, s: System, steps: seq<Step>, t: System, delivered: nat, more: seq<Step>, u: System,
                                          flushed: nat, v: System)
    requires Drained(c, s, steps, t, delivered) && Possible(c, t, more) && After(c, t, more) == u
    requires |Undelivered(t.store)| == |Undelivered(u.store)| + flushed
    requires Enabled(c, u, EndFlush) && v == Next(c, u, EndFlush)
    ensures Drained(c, s, steps + more + [EndFlush], v, delivered + flushed)
    ensures NoFailure(steps + more + [EndFlush]) == (NoFailure(steps) && NoFailure(more))
  {
    HistoryConcat(c, s, steps, more);
    Reached(c, s, steps + more, u, EndFlush, v);
    NoFailureConcat(steps, more);
  }

  /** A last batch without failures takes everything that is left, if no row backed off at the start. */
  lemma {:induction false} LastBatch(c: Config, s: System, steps: seq<Step>, t: System, events: seq<Event>, after: Store, now: nat)
    requires Possible(c, s, steps) && After(c, s, steps) == t && NoFailure(steps) && NoBackoff(s.store)
    requires events == Pending(t.store, c.batchSize, now) && |events| < c.batchSize
    requires Undelivered(after) == Undelivered(t.store) - Elements(events)
    ensures Undelivered(after) == {}
  {
    NoFailureNoBackoff(c, s, steps);
    ShortBatchIsAll(t.store, c.batchSize, now);
  }

  /**
   `drain_pending`: it ends, its result is the number of events that left the outbox, and
   without failures nothing that is not backing off stays behind.
   */
  method DrainPending(c: Config, queue: EventQueue, server: RemoteServer, maxBatches: Option<nat>)
    returns (delivered: nat, ghost steps: seq<Step>)
    requires c.batchSize > 0 && Keyed(queue.View())
    modifies queue, server
    ensures SameKeys(queue.View(), old(queue.View()))
    ensures var s := System(old(queue.View()), old(server.View()), if maxBatches == Some(0) then Idle else Fetching(maxBatches));
            Drained(c, s, steps, System(queue.View(), server.View(), Idle), delivered)
    ensures maxBatches.None? && NoFailure(steps) && NoBackoff(old(queue.View())) ==> Undelivered(queue.View()) == {}
  {
    ghost var s := System(queue.View(), server.View(), if maxBatches == Some(0) then Idle else Fetching(maxBatches));
    ghost var t := s;
    NothingDrained(c, s);
    steps := [];
    delivered := 0;
    var batchCount := 0;
    while maxBatches.None? || batchCount < maxBatches.value
      invariant maxBatches.Some? ==> batchCount <= maxBatches.value
      invariant t == System(queue.View(), server.View(),
                            if Left(maxBatches, batchCount) == Some(0) then Idle else Fetching(Left(maxBatches, batchCount)))
      invariant SameKeys(queue.View(), s.store) && Keyed(queue.View())
      invariant Drained(c, s, steps, t, delivered)
      decreases |Undelivered(queue.View())|
    {
      var batchDelivered;
      batchDelivered, steps, t := DrainOnce(c, queue, server, s, steps, t, delivered, Left(maxBatches, batchCount));
      batchCount := batchCount + 1;
      delivered := delivered + batchDelivered;
      if batchDelivered < c.batchSize {
        return;
      }
    }
  }

  /** One batch of a drain. */
  method DrainOnce(c: Config, queue: EventQueue, server: RemoteServer, ghost s: System, ghost before: seq<Step>, ghost t: System,
                   ghost delivered: nat, ghost left: Option<nat>)
    returns (batchDelivered: nat, ghost steps: seq<Step>, ghost v: System)
    requires t == System(queue.View(), server.View(), Fetching(left)) && left != Some(0) && Keyed(queue.View())
    requires Drained(c, s, before, t, delivered)
    modifies queue, server
    ensures SameKeys(queue.View(), old(queue.View())) && Keyed(queue.View())
    ensures v == System(queue.View(), server.View(),
                        if batchDelivered < c.batchSize || LessOne(left) == Some(0) then Idle else Fetching(LessOne(left)))
    ensures Drained(c, s, steps, v, delivered + batchDelivered)
    ensures |Undelivered(old(queue.View()))| == |Undelivered(queue.View())| + batchDelivered
    ensures batchDelivered < c.batchSize && NoFailure(steps) && NoBackoff(s.store) ==> Undelivered(queue.View()) == {}
  {
    var now := Clock();
    ghost var events := Pending(queue.View(), c.batchSize, now);
    ghost var more;
    batchDelivered, more := FlushPending(c, queue, server, now, left);
    KeyedStays(t.store, queue.View());
    ghost var u := System(queue.View(), server.View(), Flushing([], Begin, batchDelivered, LessOne(left)));
    v := Next(c, u, EndFlush);
    DrainedOneMore(c, s, before, t, delivered, more, u, batchDelivered, v);
    steps := before + more + [EndFlush];
    if batchDelivered < c.batchSize && NoFailure(steps) && NoBackoff(s.store) {
      LastBatch(c, s, before, t, events, queue.View(), now);
    }
  }

  lemma KeyedStays(a: Store, b: Store)
    requires Keyed(a) && SameKeys(b, a)
    ensures Keyed(b)
  {
    forall i | 0 <= i < |b.rows| ensures b.rows[i].event.runId in b.runs {
      assert EventsOf(b.rows)[i] == EventsOf(a.rows)[i];
      assert a.rows[i].event.runId in a.runs;
    }
  }

  lemma {:induction false} RetryKeepsKeys(store: Store)
    requires Keyed(store)
    ensures Keyed(RetriedAll(store)) && SameKeys(RetriedAll(store), store)
    ensures NoBackoff(RetriedAll(store)) && Undelivered(RetriedAll(store)) == Undelivered(store)
  {
    MarkingKeepsLogs(store, [], 0);
    FailedStay(store, [], 0);
    RetriedNoBackoff(store);
    KeyedStays(store, RetriedAll(store));
  }

  lemma {:induction false} FromStart(c: Config, s: System, steps: seq<Step>, t: System)
    requires s.drainer.Idle?
    requires var u := System(RetriedAll(s.store), s.server, Fetching(None)); Possible(c, u, steps) && After(c, u, steps) == t
    ensures Possible(c, s, [StartDrain(true, None)] + steps) && After(c, s, [StartDrain(true, None)] + steps) == t
    ensures NoFailure([StartDrain(true, None)] + steps) == NoFailure(steps)
  {
    OneStepHistory(c, s, StartDrain(true, None));
    HistoryConcat(c, s, [StartDrain(true, None)], steps);
    NoFailureConcat([StartDrain(true, None)], steps);
  }

  /**
   The sync command: what it reports adds up, and it reports success exactly if the
   outbox is empty afterwards, which it is if no upload failed.
   */
  method Sync(c: Config, queue: EventQueue, server: RemoteServer)
    returns (ok: bool, delivered: nat, pendingBefore: nat, pendingAfter: nat, ghost steps: seq<Step>)
    requires c.batchSize > 0 && Keyed(queue.View())
    modifies queue, server
    ensures var s := System(old(queue.View()), old(server.View()), Idle);
            Possible(c, s, steps) && After(c, s, steps) == System(queue.View(), server.View(), Idle)
    ensures pendingBefore == |Undelivered(old(queue.View()))| && pendingAfter == |Undelivered(queue.View())|
    ensures pendingBefore == pendingAfter + delivered
    ensures ok <==> Undelivered(queue.View()) == {}
    ensures NoFailure(steps) ==> ok
  {
    ghost var s := System(queue.View(), server.View(), Idle);
    PendingCountIs(queue.rows, queue.runs);
    pendingBefore := queue.PendingEventCount();
    RetryKeepsKeys(queue.View());
    queue.RetryAllPendingNow();
    delivered, steps := DrainPending(c, queue, server, None);
    FromStart(c, s, steps, System(queue.View(), server.View(), Idle));
    steps := [StartDrain(true, None)] + steps;
    KeyedStays(s.store, queue.View());
    PendingCountIs(queue.rows, queue.runs);
    pendingAfter := queue.PendingEventCount();
    ok := pendingAfter == 0;
  }

  lemma {:induction false} NoneUndelivered(store: Store)
    requires Undelivered(store) == {}
    ensures forall i :: 0 <= i < |store.rows| ==> store.rows[i].delivered
  {
    assert forall i :: 0 <= i < |store.rows| && !store.rows[i].delivered ==> store.rows[i].event in Undelivered(store);
  }

  /** When the outbox is empty, the server has accepted every log in full. */
  lemma {:induction false} EmptyOutboxMeansAccepted(c: Config, steps: seq<Step>, runId: Uuid)
    requires Possible(c, START, steps)
    requires var s := After(c, START, steps); Undelivered(s.store) == {} && runId in s.store.runs
    ensures var s := After(c, START, steps);
            AcceptedOf(s.server, runId) == Log(s.store, runId)
  {
    var s := After(c, START, steps);
    NoneUndelivered(s.store);
    Convergence(c, steps, runId);
  }
}
