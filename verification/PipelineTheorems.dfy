/**
 What the event pipeline guarantees in every history of appends, requests, lost
 replies, refusals and crashes.
 */
module PipelineTheorems {
  import opened Wrappers
  import opened Events
  import opened Ingest
  import opened IngestLaws
  import opened Queue
  import opened Sequences
  import opened Pipeline
  import opened PipelineInvariant
  import opened PipelineSteps

  lemma {:induction false} HistoryKeeps(c: Config, s: System, steps: seq<Step>)
    requires Invariant(c, s) && Possible(c, s, steps)
    ensures Invariant(c, After(c, s, steps)) && Grows(s, After(c, s, steps))
    decreases |steps|
  {
    if steps != [] {
      var next := Next(c, s, steps[0]);
      StepKeeps(c, s, steps[0]);
      HistoryKeeps(c, next, steps[1..]);
      GrowsOn(s, next, After(c, next, steps[1..]));
    }
  }

  lemma {:induction false} GrowsOn(a: System, b: System, c: System)
    requires Grows(a, b) && Grows(b, c)
    ensures Grows(a, c)
  {
  }

  lemma {:induction false} StartInvariant(c: Config)
    ensures Invariant(c, START)
  {
    assert EventsOf(START.store.rows) == [];
    forall r ensures SeqsIncrease(AcceptedOf(START.server, r)) {
      assert AcceptedOf(START.server, r) == [];
    }
    assert forall r :: !IsInitialized(START.store, r);
  }

  /** A list of events of a log, each at most once and in the order of the log. */
  predicate SubLog(es: seq<Event>, log: seq<Event>) {
    && SeqsIncrease(es)
    && forall i :: 0 <= i < |es| ==> 1 <= es[i].seqNo <= |log| && es[i] == log[es[i].seqNo - 1]
  }

  lemma {:induction false} MembersAreSubLog(es: seq<Event>, log: seq<Event>)
    requires SeqsIncrease(es) && Numbered(log) && forall i :: 0 <= i < |es| ==> es[i] in log
    ensures SubLog(es, log)
  {
    forall i | 0 <= i < |es| ensures 1 <= es[i].seqNo <= |log| && es[i] == log[es[i].seqNo - 1] {
      assert es[i] in log;
    }
  }

  lemma {:induction false} AcceptedIsLogged(c: Config, s: System, runId: Uuid, e: Event)
    requires Invariant(c, s) && e in AcceptedOf(s.server, runId)
    ensures runId in s.store.runs && e in Log(s.store, runId)
  {
    OfMembers(s.server.events, runId);
    OfMembers(EventsOf(s.store.rows), runId);
    var k :| 0 <= k < |s.server.events| && s.server.events[k] == e;
    assert IsInitialized(s.store, e.runId);
  }

  lemma {:induction false} AcceptedIsSubLog(c: Config, s: System, runId: Uuid)
    requires Invariant(c, s)
    ensures SubLog(AcceptedOf(s.server, runId), Log(s.store, runId))
  {
    var accepted := AcceptedOf(s.server, runId);
    if accepted != [] {
      forall i | 0 <= i < |accepted| ensures accepted[i] in Log(s.store, runId) {
        AcceptedIsLogged(c, s, runId, accepted[i]);
      }
      AcceptedIsLogged(c, s, runId, accepted[0]);
      assert RunInvariant(s.store, runId);
      MembersAreSubLog(accepted, Log(s.store, runId));
    }
  }

  /**
   The server's accepted events of a run are a subsequence of the local log, none
   twice, and its Run row is their projection from the registration of the run.
   */
  lemma {:induction false} ExactlyOnce(c: Config, steps: seq<Step>, runId: Uuid)
    requires Possible(c, START, steps)
    ensures var s := After(c, START, steps);
            && UniqueIds(s.server.events)
            && SubLog(AcceptedOf(s.server, runId), Log(s.store, runId))
            && (runId !in s.server.runs ==> AcceptedOf(s.server, runId) == [])
            && (runId in s.server.runs ==> runId in s.store.runs && exists at ::
                  ProjectedSince(s.server.runs[runId], s.store.runs[runId], c.workspaceId, AcceptedOf(s.server, runId), at))
  {
    var s := After(c, START, steps);
    StartInvariant(c);
    HistoryKeeps(c, START, steps);
    AcceptedIsSubLog(c, s, runId);
    if runId !in s.server.runs {
      forall i | 0 <= i < |s.server.events| ensures s.server.events[i].runId != runId {
        assert IsInitialized(s.store, s.server.events[i].runId);
      }
      OfNone(s.server.events, runId);
    } else {
      assert RowInvariant(c, s, runId);
    }
  }

  /**
   A client that does not know that a run is registered may register it again: the
   request is never refused, and it leaves a row that is already there as it is.
   */
  lemma {:induction false} RegisteringAgain(c: Config, steps: seq<Step>, runId: Uuid, at: int)
    requires Possible(c, START, steps)
    requires var s := After(c, START, steps); runId in s.store.runs && !s.store.runs[runId].remoteInitialized
    ensures var s := After(c, START, steps);
            var put := Upsert(s.server, s.store.runs[runId], c.workspaceId, at);
            put.Ok? && (runId in s.server.runs ==> put.value == s.server)
  {
    var s := After(c, START, steps);
    StartInvariant(c);
    HistoryKeeps(c, START, steps);
    assert RunInvariant(s.store, runId);
    if runId in s.server.runs {
      PutAgain(c, s, runId, at);
    }
  }

  lemma {:induction false} MarkedIsRegistered(c: Config, s: System, runId: Uuid)
    requires Invariant(c, s)
    ensures if IsInitialized(s.store, runId) then runId in s.server.runs else AcceptedOf(s.server, runId) == []
  {
    if !IsInitialized(s.store, runId) {
      forall i | 0 <= i < |s.server.events| ensures s.server.events[i].runId != runId {
        assert IsInitialized(s.store, s.server.events[i].runId);
      }
      OfNone(s.server.events, runId);
    }
  }

  lemma {:induction false} MarkedStays(c: Config, s: System, later: System, runId: Uuid, fate: Fate, at: int)
    requires Grows(s, later) && IsInitialized(s.store, runId)
    ensures IsInitialized(later.store, runId)
    ensures Enabled(c, later, Put(fate, at)) ==> later.drainer.groups[0].runId != runId
  {
  }

  /**
   What the flag `remote_initialized` says in every history: the server has the row of a
   run that is marked and no event of one that is not, and once a run is marked no
   continuation registers it again.
   */
  lemma {:induction false} FlagMeansRegistered(c: Config, steps: seq<Step>, more: seq<Step>, runId: Uuid, fate: Fate, at: int)
    requires Possible(c, START, steps) && Possible(c, After(c, START, steps), more)
    ensures var s, later := After(c, START, steps), After(c, After(c, START, steps), more);
            if IsInitialized(s.store, runId)
            then runId in s.server.runs && IsInitialized(later.store, runId)
                 && (Enabled(c, later, Put(fate, at)) ==> later.drainer.groups[0].runId != runId)
            else AcceptedOf(s.server, runId) == []
  {
    var s := After(c, START, steps);
    StartInvariant(c);
    HistoryKeeps(c, START, steps);
    HistoryKeeps(c, s, more);
    MarkedIsRegistered(c, s, runId);
    if IsInitialized(s.store, runId) {
      MarkedStays(c, s, After(c, s, more), runId, fate, at);
    }
  }

  // Convergence.

  predicate AllDelivered(store: Store, runId: Uuid) {
    forall i :: 0 <= i < |store.rows| && store.rows[i].event.runId == runId ==> store.rows[i].delivered
  }

  /** A list that has, with an event, every earlier event of the log. */
  predicate Closed(es: seq<Event>, log: seq<Event>) {
    forall e, x :: e in es && x in log && x.seqNo < e.seqNo ==> x in es
  }

  lemma {:induction false} ClosedSeq(es: seq<Event>, log: seq<Event>, n: nat)
    requires Numbered(log) && SubLog(es, log) && Closed(es, log) && n < |es|
    ensures es[n].seqNo == n + 1
  {
    if n > 0 {
      ClosedSeq(es, log, n - 1);
      assert es[n - 1].seqNo < es[n].seqNo;
    }
    assert n < es[n].seqNo <= |log|;
    assert log[n] in log && log[n].seqNo == n + 1;
    assert forall k :: 0 <= k < n ==> es[k].seqNo <= n;
    assert forall k :: n < k < |es| ==> es[k].seqNo > es[n].seqNo;
    assert es[n] in es;
  }

  lemma {:induction false} ClosedAt(es: seq<Event>, log: seq<Event>, i: nat)
    requires Numbered(log) && SubLog(es, log) && Closed(es, log) && i < |es|
    ensures i < |log| && es[i] == log[i]
  {
    ClosedSeq(es, log, i);
  }

  lemma {:induction false} ClosedIsPrefix(es: seq<Event>, log: seq<Event>)
    requires Numbered(log) && SubLog(es, log) && Closed(es, log)
    ensures es <= log
  {
    if es != [] { ClosedAt(es, log, |es| - 1); }
    forall i | 0 <= i < |es| ensures es[i] == log[i] {
      ClosedAt(es, log, i);
    }
    PrefixByElements(es, log);
  }

  lemma {:induction false} CompleteSubLog(es: seq<Event>, log: seq<Event>)
    requires Numbered(log) && SubLog(es, log) && forall e :: e in log ==> e in es
    ensures es == log
  {
    ClosedIsPrefix(es, log);
    if log != [] {
      var last := log[|log| - 1];
      assert last in log;
      var k :| 0 <= k < |es| && es[k] == last;
      assert es[k] == log[k];
    }
  }

  lemma {:induction false} LoggedIsAccepted(c: Config, s: System, runId: Uuid, e: Event)
    requires Invariant(c, s) && AllDelivered(s.store, runId) && e in Log(s.store, runId)
    ensures e in AcceptedOf(s.server, runId)
  {
    OfMembers(s.server.events, runId);
    OfMembers(EventsOf(s.store.rows), runId);
    var i :| 0 <= i < |s.store.rows| && EventsOf(s.store.rows)[i] == e;
    assert s.store.rows[i].delivered;
  }

  lemma {:induction false} DeliveredIsAccepted(c: Config, s: System, runId: Uuid)
    requires Invariant(c, s) && runId in s.store.runs && AllDelivered(s.store, runId)
    ensures AcceptedOf(s.server, runId) == Log(s.store, runId) && runId in s.server.runs
  {
    assert RunInvariant(s.store, runId);
    AcceptedIsSubLog(c, s, runId);
    forall e | e in Log(s.store, runId) ensures e in AcceptedOf(s.server, runId) {
      LoggedIsAccepted(c, s, runId, e);
    }
    CompleteSubLog(AcceptedOf(s.server, runId), Log(s.store, runId));
    OfMembers(s.server.events, runId);
    assert Log(s.store, runId)[0] in AcceptedOf(s.server, runId);
    assert IsInitialized(s.store, runId);
  }

  /**
   Whenever no event of a run is left to deliver, the server has accepted the whole
   log, and the two projections of it agree if a Worker wrote it.
   */
  lemma {:induction false} Convergence(c: Config, steps: seq<Step>, runId: Uuid)
    requires Possible(c, START, steps)
    requires var s := After(c, START, steps); runId in s.store.runs && AllDelivered(s.store, runId)
    ensures var s := After(c, START, steps);
            && AcceptedOf(s.server, runId) == Log(s.store, runId)
            && runId in s.server.runs
            && (WorkerShaped(Log(s.store, runId)) ==> Agree(s.server.runs[runId], s.store.runs[runId]))
  {
    StartInvariant(c);
    HistoryKeeps(c, START, steps);
    DeliveredAgrees(c, After(c, START, steps), runId);
  }

  lemma {:induction false} DeliveredAgrees(c: Config, s: System, runId: Uuid)
    requires Invariant(c, s) && runId in s.store.runs && AllDelivered(s.store, runId)
    ensures AcceptedOf(s.server, runId) == Log(s.store, runId) && runId in s.server.runs
    ensures WorkerShaped(Log(s.store, runId)) ==> Agree(s.server.runs[runId], s.store.runs[runId])
  {
    DeliveredIsAccepted(c, s, runId);
    var log, local := Log(s.store, runId), s.store.runs[runId];
    assert RunInvariant(s.store, runId) && RowInvariant(c, s, runId);
    var at :| ProjectedSince(s.server.runs[runId], local, c.workspaceId, log, at);
    if WorkerShaped(log) {
      ProjectionsAgree(NewRun(local, c.workspaceId, at), Blank(local), log);
    }
  }
}
