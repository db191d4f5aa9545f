/**
 When the server's accepted events of a run are a prefix of the local log: always if
 every drain starts by making all pending rows due, as the sync command does, but not
 for the background loop, which lets rows that back off be passed.
 */
module PipelinePrefix {
  import opened Wrappers
  import opened Events
  import opened Ingest
  import opened IngestLaws
  import opened Queue
  import opened Sequences
  import opened Pipeline
  import opened PipelineInvariant
  import opened PipelineSteps
  import opened PipelineTheorems
  import opened PipelineOrder

  /** Every drain of a history starts with `retry_all_pending_now`. */
  predicate RetriesAll(steps: seq<Step>) {
    forall i :: 0 <= i < |steps| && steps[i].StartDrain? ==> steps[i].retryAll
  }

  /** No undelivered row backs off. */
  predicate NoBackoff(store: Store) {
    forall i :: 0 <= i < |store.rows| ==> store.rows[i].delivered || store.rows[i].nextAttempt == 0
  }

  /** With an event, a batch has every earlier event of the log that is not accepted. */
  predicate SkipsNothing(batch: seq<Event>, accepted: seq<Event>, log: seq<Event>) {
    forall e, x :: e in batch && x in log && x.seqNo < e.seqNo ==> x in batch || x in accepted
  }

  ghost predicate AcceptedClosed(s: System) {
    forall runId :: runId in s.store.runs ==> Closed(AcceptedOf(s.server, runId), Log(s.store, runId))
  }

  predicate GroupsSkipNothing(s: System) {
    s.drainer.Flushing? ==>
      forall i :: 0 <= i < |s.drainer.groups| ==>
        SkipsNothing(s.drainer.groups[i].batch, AcceptedOf(s.server, s.drainer.groups[i].runId), Log(s.store, s.drainer.groups[i].runId))
  }

  /** While rows back off, the current flush cannot reach a full batch any more. */
  predicate BackoffStopsDrain(c: Config, s: System) {
    match s.drainer
    case Idle => true
    case Fetching(_) => NoBackoff(s.store)
    case Flushing(groups, _, delivered, _) =>
      delivered + Size(groups) <= c.batchSize
      && (delivered + Size(groups) == c.batchSize ==> NoBackoff(s.store))
  }

  ghost predicate OrderInvariant(c: Config, s: System) {
    AcceptedClosed(s) && GroupsSkipNothing(s) && BackoffStopsDrain(c, s)
  }

  // Logs grow at the end.

  /** A longer log whose new events come later than all old ones. */
  predicate LaterAdded(log: seq<Event>, more: seq<Event>) {
    Numbered(more) && log <= more
  }

  lemma {:induction false} LogsGrow(c: Config, s: System, t: System, runId: Uuid)
    requires Invariant(c, s) && Invariant(c, t) && Grows(s, t) && runId in s.store.runs
    ensures LaterAdded(Log(s.store, runId), Log(t.store, runId))
    ensures AcceptedOf(s.server, runId) <= AcceptedOf(t.server, runId)
  {
    assert RunInvariant(t.store, runId);
    OfGrows(EventsOf(s.store.rows), EventsOf(t.store.rows), runId);
    OfGrows(s.server.events, t.server.events, runId);
  }

  lemma {:induction false} ClosedStays(es: seq<Event>, log: seq<Event>, more: seq<Event>)
    requires Closed(es, log) && LaterAdded(log, more) && forall e :: e in es ==> e in log
    ensures Closed(es, more)
  {
    forall e, x | e in es && x in more && x.seqNo < e.seqNo ensures x in es {
      assert x in log;
    }
  }

  lemma {:induction false} SkipsNothingStays(batch: seq<Event>, accepted: seq<Event>, log: seq<Event>, accepted': seq<Event>, more: seq<Event>)
    requires SkipsNothing(batch, accepted, log) && LaterAdded(log, more) && accepted <= accepted'
    requires forall e :: e in batch ==> e in log
    ensures SkipsNothing(batch, accepted', more)
  {
    forall e, x | e in batch && x in more && x.seqNo < e.seqNo ensures x in batch || x in accepted' {
      assert x in log;
    }
  }

  lemma {:induction false} BatchIsLogged(s: System, g: Group)
    requires GroupInvariant(s, g)
    ensures forall e :: e in g.batch ==> e in Log(s.store, g.runId)
  {
    OfMembers(EventsOf(s.store.rows), g.runId);
  }

  lemma {:induction false} GroupsStayWhole(c: Config, s: System, t: System, g: Group)
    requires Invariant(c, s) && Invariant(c, t) && Grows(s, t) && GroupInvariant(s, g)
    requires SkipsNothing(g.batch, AcceptedOf(s.server, g.runId), Log(s.store, g.runId))
    ensures SkipsNothing(g.batch, AcceptedOf(t.server, g.runId), Log(t.store, g.runId))
  {
    BatchIsLogged(s, g);
    LogsGrow(c, s, t, g.runId);
    SkipsNothingStays(g.batch, AcceptedOf(s.server, g.runId), Log(s.store, g.runId), AcceptedOf(t.server, g.runId), Log(t.store, g.runId));
  }

  /** Steps other than uploads keep what is accepted closed. */
  lemma {:induction false} ClosedUnlessUploaded(c: Config, s: System, t: System)
    requires Invariant(c, s) && Invariant(c, t) && Grows(s, t) && AcceptedClosed(s)
    requires t.server.events == s.server.events
    ensures AcceptedClosed(t)
  {
    forall runId | runId in t.store.runs ensures Closed(AcceptedOf(t.server, runId), Log(t.store, runId)) {
      AcceptedIsSubLog(c, s, runId);
      if runId in s.store.runs {
        LogsGrow(c, s, t, runId);
        ClosedStays(AcceptedOf(s.server, runId), Log(s.store, runId), Log(t.store, runId));
      } else {
        assert AcceptedOf(s.server, runId) == [] by { NoEventsOfUnknown(c, s, runId); }
      }
    }
  }

  lemma {:induction false} NoEventsOfUnknown(c: Config, s: System, runId: Uuid)
    requires Invariant(c, s) && runId !in s.store.runs
    ensures AcceptedOf(s.server, runId) == []
  {
    forall i | 0 <= i < |s.server.events| ensures s.server.events[i].runId != runId {
      assert IsInitialized(s.store, s.server.events[i].runId);
    }
    OfNone(s.server.events, runId);
  }

  // Uploads.

  lemma {:induction false} AddedFromBatch(before: Ledger, after: Ledger, added: seq<Event>, batch: seq<Event>)
    requires Extends(before, after, added, batch)
    ensures forall e :: e in added ==> e in batch
    ensures forall i :: 0 <= i < |added| ==> added[i].runId == before.run.id
  {
  }

  /** What an accepted upload leaves accepted: what was, and the batch. */
  lemma {:induction false} AcceptedAfterUpload(c: Config, s: System, t: System, g: Group)
    requires Invariant(c, s) && GroupInvariant(s, g) && s.store.runs[g.runId].remoteInitialized
    requires Accepts(s.server, g.runId, g.batch) && t.store == s.store && t.server == Uploaded(s.server, g.runId, g.batch)
    ensures AcceptedOf(s.server, g.runId) <= AcceptedOf(t.server, g.runId)
    ensures forall e :: e in AcceptedOf(t.server, g.runId) <==> e in AcceptedOf(s.server, g.runId) || e in g.batch
    ensures forall r: Uuid :: r != g.runId ==> AcceptedOf(t.server, r) == AcceptedOf(s.server, r)
  {
    RowHasId(c, s, g.runId);
    var added := UploadExtends(s.server, g.runId, g.batch);
    AddedFromBatch(LedgerOf(s.server, g.runId), IngestBatch(LedgerOf(s.server, g.runId), g.batch).value.ledger, added, g.batch);
    AcceptedAfter(s.server.events, added, g.runId);
    assert AcceptedOf(t.server, g.runId) == AcceptedOf(s.server, g.runId) + added;
    BatchIsAccepted(c, s, t, g);
  }

  lemma {:induction false} BatchIsAccepted(c: Config, s: System, t: System, g: Group)
    requires Invariant(c, s) && GroupInvariant(s, g) && s.store.runs[g.runId].remoteInitialized
    requires Accepts(s.server, g.runId, g.batch) && t.server == Uploaded(s.server, g.runId, g.batch)
    ensures forall e :: e in g.batch ==> e in AcceptedOf(t.server, g.runId)
  {
    UploadHeld(c, s, g, t);
    HeldOfRun(t.server.events, g.batch, g.runId);
  }

  lemma {:induction false} HeldOfRun(events: seq<Event>, batch: seq<Event>, runId: Uuid)
    requires forall i :: 0 <= i < |batch| ==> batch[i] in events && batch[i].runId == runId
    ensures forall e :: e in batch ==> e in Of(events, runId)
  {
    OfMembers(events, runId);
  }

  lemma {:induction false} UploadKeepsClosed(c: Config, s: System, t: System, g: Group)
    requires Invariant(c, s) && GroupInvariant(s, g) && s.store.runs[g.runId].remoteInitialized && AcceptedClosed(s)
    requires Accepts(s.server, g.runId, g.batch) && t.store == s.store && t.server == Uploaded(s.server, g.runId, g.batch)
    requires SkipsNothing(g.batch, AcceptedOf(s.server, g.runId), Log(s.store, g.runId))
    ensures AcceptedClosed(t)
  {
    AcceptedAfterUpload(c, s, t, g);
    forall runId | runId in t.store.runs ensures Closed(AcceptedOf(t.server, runId), Log(t.store, runId)) {
      assert Closed(AcceptedOf(s.server, runId), Log(s.store, runId));
    }
  }

  /** An accepted upload leaves a prefix exactly if it skips nothing. */
  lemma {:induction false} UploadKeepsPrefix(c: Config, steps: seq<Step>, g: Group)
    requires Possible(c, START, steps)
    requires var s := After(c, START, steps);
             && GroupInvariant(s, g) && s.store.runs[g.runId].remoteInitialized && Accepts(s.server, g.runId, g.batch)
             && AcceptedOf(s.server, g.runId) <= Log(s.store, g.runId)
    ensures var s := After(c, START, steps);
            AcceptedOf(Uploaded(s.server, g.runId, g.batch), g.runId) <= Log(s.store, g.runId)
            <==> SkipsNothing(g.batch, AcceptedOf(s.server, g.runId), Log(s.store, g.runId))
  {
    var s := After(c, START, steps);
    StartInvariant(c);
    HistoryKeeps(c, START, steps);
    var t := s.(server := Uploaded(s.server, g.runId, g.batch), drainer := Idle);
    AcceptedAfterUpload(c, s, t, g);
    UploadKeepsServer(c, s, g, t);
    AcceptedIsSubLog(c, t, g.runId);
    assert RunInvariant(s.store, g.runId);
    PrefixIffWhole(AcceptedOf(s.server, g.runId), AcceptedOf(t.server, g.runId), g.batch, Log(s.store, g.runId));
  }

  lemma {:induction false} PrefixIffWhole(before: seq<Event>, after: seq<Event>, batch: seq<Event>, log: seq<Event>)
    requires Numbered(log) && before <= log && SubLog(after, log)
    requires forall e :: e in after <==> e in before || e in batch
    ensures after <= log <==> SkipsNothing(batch, before, log)
  {
    if SkipsNothing(batch, before, log) {
      assert Closed(before, log);
      assert Closed(after, log);
      ClosedIsPrefix(after, log);
    }
    if after <= log {
      assert Closed(after, log);
    }
  }

  // Fetching.

  lemma {:induction false} FetchSkipsNothing(c: Config, s: System, now: nat, g: Group)
    requires Invariant(c, s) && NoBackoff(s.store) && GroupSplits(g, Pending(s.store, c.batchSize, now)) && GroupInvariant(s, g)
    ensures SkipsNothing(g.batch, AcceptedOf(s.server, g.runId), Log(s.store, g.runId))
  {
    var pending, accepted, log := Pending(s.store, c.batchSize, now), AcceptedOf(s.server, g.runId), Log(s.store, g.runId);
    PendingIsFirstDue(s.store, c.batchSize, now);
    OfMembers(pending, g.runId);
    OfMembers(EventsOf(s.store.rows), g.runId);
    OfMembers(s.server.events, g.runId);
    forall e, x | e in g.batch && x in log && x.seqNo < e.seqNo ensures x in g.batch || x in accepted {
      var i :| 0 <= i < |s.store.rows| && EventsOf(s.store.rows)[i] == x;
      if !s.store.rows[i].delivered {
        assert IsDue(s.store, now, x);
        assert Earlier(x, e);
      }
    }
  }

  // Steps.

  lemma {:induction false} GroupsStayAll(c: Config, s: System, t: System)
    requires Invariant(c, s) && Invariant(c, t) && Grows(s, t) && GroupsSkipNothing(s) && s.drainer.Flushing?
    requires t.drainer.Flushing? && (t.drainer.groups == s.drainer.groups || (s.drainer.groups != [] && t.drainer.groups == s.drainer.groups[1..]))
    ensures GroupsSkipNothing(t)
  {
    forall i | 0 <= i < |t.drainer.groups|
      ensures SkipsNothing(t.drainer.groups[i].batch, AcceptedOf(t.server, t.drainer.groups[i].runId), Log(t.store, t.drainer.groups[i].runId))
    {
      if t.drainer.groups == s.drainer.groups {
        GroupsStayWhole(c, s, t, s.drainer.groups[i]);
      } else {
        assert t.drainer.groups[i] == s.drainer.groups[i + 1];
        GroupsStayWhole(c, s, t, s.drainer.groups[i + 1]);
      }
    }
  }

  lemma {:induction false} FetchGroupsWhole(c: Config, s: System, now: nat, t: System)
    requires Invariant(c, s) && s.drainer.Fetching? && NoBackoff(s.store) && t == Next(c, s, Fetch(now)) && Invariant(c, t)
    ensures GroupsSkipNothing(t) && Size(t.drainer.groups) <= c.batchSize
  {
    var pending := Pending(s.store, c.batchSize, now);
    PendingIsFirstDue(s.store, c.batchSize, now);
    GroupedSplits(pending);
    forall i | 0 <= i < |t.drainer.groups|
      ensures SkipsNothing(t.drainer.groups[i].batch, AcceptedOf(t.server, t.drainer.groups[i].runId), Log(t.store, t.drainer.groups[i].runId))
    {
      assert GroupSplits(t.drainer.groups[i], pending) && GroupInvariant(t, t.drainer.groups[i]);
      FetchSkipsNothing(c, s, now, t.drainer.groups[i]);
    }
  }

  lemma {:induction false} RowsStayDue(s: Store, batch: seq<Event>)
    requires NoBackoff(s)
    ensures NoBackoff(Delivered(s, batch))
  {
  }

  lemma RetriedNoBackoff(s: Store)
    ensures NoBackoff(RetriedAll(s))
  {
  }

  /** How full the flush can still get, after a step that is not an upload. */
  lemma {:induction false} BackoffStep(c: Config, s: System, step: Step)
    requires Invariant(c, s) && Enabled(c, s, step) && BackoffStopsDrain(c, s) && (step.StartDrain? ==> step.retryAll)
    requires step.Fetch? ==> Size(Next(c, s, step).drainer.groups) <= c.batchSize
    ensures BackoffStopsDrain(c, Next(c, s, step))
  {
    match step
    case StartDrain(_, _) => RetriedNoBackoff(s.store);
    case MarkDelivered =>
      assert GroupInvariant(s, s.drainer.groups[0]);
      if NoBackoff(s.store) { RowsStayDue(s.store, s.drainer.groups[0].batch); }
    case MarkFailed(_) =>
      assert GroupInvariant(s, s.drainer.groups[0]);
    case CreateRun(run, payload, id) =>
      var e := Event(id, run.id, run.machineId, 1, RunCreated, run.updatedAt, payload);
      CreatedRow(s.store, run, payload, id, e);
    case _ =>
  }

  lemma {:induction false} ClosedStep(c: Config, s: System, step: Step)
    requires Invariant(c, s) && Enabled(c, s, step) && AcceptedClosed(s) && GroupsSkipNothing(s)
    ensures AcceptedClosed(Next(c, s, step))
  {
    var t := Next(c, s, step);
    StepKeeps(c, s, step);
    if step.Upload? && !step.fate.NotApplied? {
      UploadKeepsClosed(c, s, t, s.drainer.groups[0]);
    } else {
      EventsUnlessUploaded(c, s, step);
      ClosedUnlessUploaded(c, s, t);
    }
  }

  lemma {:induction false} EventsUnlessUploaded(c: Config, s: System, step: Step)
    requires Enabled(c, s, step) && !(step.Upload? && !step.fate.NotApplied?)
    ensures Next(c, s, step).server.events == s.server.events
  {
  }

  lemma {:induction false} OrderStep(c: Config, s: System, step: Step)
    requires Invariant(c, s) && OrderInvariant(c, s) && Enabled(c, s, step) && (step.StartDrain? ==> step.retryAll)
    ensures OrderInvariant(c, Next(c, s, step))
  {
    var t := Next(c, s, step);
    StepKeeps(c, s, step);
    ClosedStep(c, s, step);
    if step.Fetch? {
      FetchGroupsWhole(c, s, step.now, t);
    } else if t.drainer.Flushing? {
      GroupsStayAll(c, s, t);
    }
    BackoffStep(c, s, step);
  }

  lemma {:induction false} OrderKept(c: Config, s: System, steps: seq<Step>)
    requires Invariant(c, s) && OrderInvariant(c, s) && Possible(c, s, steps) && RetriesAll(steps)
    ensures OrderInvariant(c, After(c, s, steps))
    decreases |steps|
  {
    if steps != [] {
      StepKeeps(c, s, steps[0]);
      OrderStep(c, s, steps[0]);
      assert RetriesAll(steps[1..]) by {
        forall i | 0 <= i < |steps[1..]| && steps[1..][i].StartDrain? ensures steps[1..][i].retryAll {
          assert steps[1..][i] == steps[i + 1];
        }
      }
      OrderKept(c, Next(c, s, steps[0]), steps[1..]);
    }
  }

  /** If every drain starts by retrying everything, the server always has a prefix of each log. */
  lemma {:induction false} PrefixKept(c: Config, steps: seq<Step>, runId: Uuid)
    requires Possible(c, START, steps) && RetriesAll(steps)
    ensures var s := After(c, START, steps); AcceptedOf(s.server, runId) <= Log(s.store, runId)
  {
    var s := After(c, START, steps);
    StartInvariant(c);
    HistoryKeeps(c, START, steps);
    OrderKept(c, START, steps);
    if runId in s.store.runs {
      assert RunInvariant(s.store, runId);
      AcceptedIsSubLog(c, s, runId);
      ClosedIsPrefix(AcceptedOf(s.server, runId), Log(s.store, runId));
    } else {
      NoEventsOfUnknown(c, s, runId);
    }
  }
}
