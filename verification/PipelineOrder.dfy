/**
 The order in which the server accepts events: which uploads it refuses, when its
 accepted events are a prefix of the local log, and what happens to an event that
 a later one has overtaken.
 */
module PipelineOrder {
  import opened Wrappers
  import opened Events
  import opened Ingest
  import opened IngestLaws
  import opened Queue
  import opened Sequences
  import opened Pipeline
  import opened PipelineInvariant
  import opened PipelineSteps
  import opened PipelineTheorems

  /** Not accepted, while a later event of its run is. */
  predicate Overtaken(accepted: seq<Event>, e: Event) {
    e !in accepted && exists i :: 0 <= i < |accepted| && accepted[i].seqNo >= e.seqNo
  }

  // Refusals.

  /** A log that a client may upload, among all events it has. */
  predicate Uploadable(base: Run, log: seq<Event>, all: seq<Event>) {
    && base.status == CREATED && base.lastSeq == 0
    && Numbered(log) && StatusesAdvance(Kinds(log))
    && log == Of(all, base.id) && UniqueIds(all)
    && (forall i :: 0 <= i < |log| ==> log[i].machineId == base.machineId)
  }

  /** The run of a ledger has accepted a part of the log. */
  predicate Follower(l: Ledger, base: Run, log: seq<Event>, all: seq<Event>) {
    && Uploadable(base, log, all)
    && l.run == Project(base, Of(l.events, base.id))
    && SubLog(Of(l.events, base.id), log)
    && (forall i :: 0 <= i < |l.events| ==> l.events[i] in all)
  }

  lemma {:induction false} ProjectStatus(run: Run, es: seq<Event>)
    ensures Project(run, es).status == run.status
            || exists i :: 0 <= i < |es| && EventStatus(es[i].kind) == Some(Project(run, es).status)
    decreases |es|
  {
    if es != [] {
      var n := |es| - 1;
      ProjectStatus(run, es[..n]);
      var status := Project(run, es[..n]).status;
      if EventStatus(es[n].kind).Some? {
        assert EventStatus(es[n].kind) == Some(Project(run, es).status);
      } else if status != run.status {
        var i :| 0 <= i < n && EventStatus(es[..n][i].kind) == Some(status);
        assert EventStatus(es[i].kind) == Some(Project(run, es).status);
      }
    }
  }

  /** Of a log whose statuses advance, any later event is allowed after any selection of earlier ones. */
  lemma {:induction false} LaterIsAllowed(base: Run, es: seq<Event>, log: seq<Event>, e: Event)
    requires base.status == CREATED && SubLog(es, log) && Numbered(log) && StatusesAdvance(Kinds(log)) && e in log
    requires forall i :: 0 <= i < |es| ==> es[i].seqNo < e.seqNo
    ensures Transition(Project(base, es), e) == None
  {
    ProjectStatus(base, es);
    var status := Project(base, es).status;
    if status != CREATED {
      var i :| 0 <= i < |es| && EventStatus(es[i].kind) == Some(status);
      var k :| 0 <= k < |log| && log[k] == e;
      assert Follows(Kinds(log)[es[i].seqNo - 1], Kinds(log)[k]);
    }
  }

  lemma {:induction false} AcceptedIsKnown(events: seq<Event>, e: Event)
    requires e in events
    ensures HasId(events, e.id) && HasSeq(events, e.runId, e.seqNo) && Known(events, e.runId, e)
  {
    var i :| 0 <= i < |events| && events[i] == e;
    assert events[i].id == e.id && events[i].runId == e.runId && events[i].seqNo == e.seqNo;
  }

  lemma {:induction false} FollowerKnows(l: Ledger, base: Run, log: seq<Event>, all: seq<Event>, e: Event)
    requires Follower(l, base, log, all) && e in log
    ensures e in Of(l.events, base.id) ==> HasId(l.events, e.id) && Known(l.events, base.id, e)
    ensures e !in Of(l.events, base.id) ==> !HasId(l.events, e.id) && !HasSeq(l.events, base.id, e.seqNo)
  {
    OfMembers(l.events, base.id);
    OfMembers(all, base.id);
    if e in Of(l.events, base.id) {
      AcceptedIsKnown(l.events, e);
    } else {
      forall i | 0 <= i < |l.events|
        ensures l.events[i].id != e.id && !(l.events[i].runId == base.id && l.events[i].seqNo == e.seqNo)
      {
        UnlikeAccepted(l, base, log, all, e, l.events[i]);
      }
    }
  }

  lemma {:induction false} UnlikeAccepted(l: Ledger, base: Run, log: seq<Event>, all: seq<Event>, e: Event, x: Event)
    requires Follower(l, base, log, all) && e in log && x in l.events && e !in Of(l.events, base.id)
    ensures x.id != e.id && !(x.runId == base.id && x.seqNo == e.seqNo)
  {
    OfMembers(l.events, base.id);
    OfMembers(all, base.id);
    if x.runId == base.id {
      assert x in Of(l.events, base.id);
    }
  }

  /** What the server says to an event of the log: it knows it, takes it, or it is too late for it. */
  lemma {:induction false} JudgeLogged(l: Ledger, base: Run, log: seq<Event>, all: seq<Event>, e: Event)
    requires Follower(l, base, log, all) && e in log
    ensures Judge(l, e) == if e in Of(l.events, base.id) then Duplicate
                           else if e.seqNo > l.run.lastSeq then Accept
                           else Reject(OutOfOrder)
  {
    var accepted := Of(l.events, base.id);
    FollowerKnows(l, base, log, all, e);
    ProjectKeeps(base, accepted);
    OfMembers(all, base.id);
    if e !in accepted && e.seqNo > l.run.lastSeq {
      LaterIsAllowed(base, accepted, log, e);
    }
  }

  predicate InTime(l: Ledger, e: Event) {
    e in Of(l.events, l.run.id) || e.seqNo > l.run.lastSeq
  }

  lemma {:induction false} SubLogSnoc(es: seq<Event>, log: seq<Event>, e: Event)
    requires SubLog(es, log) && Numbered(log) && e in log
    requires es != [] ==> es[|es| - 1].seqNo < e.seqNo
    ensures SubLog(es + [e], log)
  {
    var more := es + [e];
    forall j, k | 0 <= j < k < |more| ensures more[j].seqNo < more[k].seqNo {
      assert j < |es| - 1 ==> es[j].seqNo < es[|es| - 1].seqNo;
    }
  }

  lemma {:induction false} RunFollows(l: Ledger, base: Run, e: Event)
    requires l.run == Project(base, Of(l.events, base.id)) && e.runId == base.id
    ensures Of(l.events + [e], base.id) == Of(l.events, base.id) + [e]
    ensures Apply(l.run, e) == Project(base, Of(l.events + [e], base.id))
    ensures Of(l.events, base.id) != [] ==> Of(l.events, base.id)[|Of(l.events, base.id)| - 1].seqNo == l.run.lastSeq
    ensures l.run.id == base.id && Apply(l.run, e).lastSeq == e.seqNo && Apply(l.run, e).id == base.id
  {
    OfSnoc(l.events, e, base.id);
    ProjectSnoc(base, Of(l.events, base.id), e);
    ProjectKeeps(base, Of(l.events, base.id));
  }

  lemma {:induction false} FollowerAccepts(l: Ledger, base: Run, log: seq<Event>, all: seq<Event>, e: Event, l': Ledger)
    requires Follower(l, base, log, all) && e in log && e.seqNo > l.run.lastSeq
    requires l' == Ledger(Apply(l.run, e), l.events + [e])
    ensures Follower(l', base, log, all)
  {
    OfMembers(all, base.id);
    RunFollows(l, base, e);
    SubLogSnoc(Of(l.events, base.id), log, e);
  }

  /** Once an event is accepted, what follows it in an ascending batch is in time. */
  lemma {:induction false} RestIsInTime(l: Ledger, base: Run, log: seq<Event>, all: seq<Event>, e: Event, x: Event, l': Ledger)
    requires Follower(l, base, log, all) && e in log && x in log && e.seqNo > l.run.lastSeq && e.seqNo <= x.seqNo
    requires l' == Ledger(Apply(l.run, e), l.events + [e])
    ensures InTime(l', x) && InTime(l, x)
  {
    OfMembers(all, base.id);
    RunFollows(l, base, e);
    assert x.seqNo == e.seqNo ==> x == e;
  }

  lemma {:induction false} AcceptedFirst(acc: Ingested, base: Run, log: seq<Event>, all: seq<Event>, es: seq<Event>)
    requires Follower(acc.ledger, base, log, all) && SeqsAscend(es) && es != []
    requires forall i :: 0 <= i < |es| ==> es[i] in log
    requires Judge(acc.ledger, es[0]).Accept? && es[0].seqNo > acc.ledger.run.lastSeq
    ensures var l' := IngestOne(acc, es[0]).value.ledger;
            && Follower(l', base, log, all)
            && forall i :: 0 <= i < |es[1..]| ==> InTime(l', es[1..][i]) && InTime(acc.ledger, es[i + 1])
  {
    var l' := IngestOne(acc, es[0]).value.ledger;
    FollowerAccepts(acc.ledger, base, log, all, es[0], l');
    forall i | 0 <= i < |es[1..]| ensures InTime(l', es[1..][i]) && InTime(acc.ledger, es[i + 1]) {
      RestIsInTime(acc.ledger, base, log, all, es[0], es[i + 1], l');
    }
  }

  /** The first event of a batch is taken if it is in time, and that makes no later one late. */
  lemma {:induction false} FirstInTime(acc: Ingested, base: Run, log: seq<Event>, all: seq<Event>, es: seq<Event>)
    requires Follower(acc.ledger, base, log, all) && SeqsAscend(es) && es != []
    requires forall i :: 0 <= i < |es| ==> es[i] in log
    ensures IngestOne(acc, es[0]).Ok? <==> InTime(acc.ledger, es[0])
    ensures IngestOne(acc, es[0]).Ok? ==>
              var l' := IngestOne(acc, es[0]).value.ledger;
              && Follower(l', base, log, all)
              && forall i :: 0 <= i < |es[1..]| ==> InTime(l', es[1..][i]) == InTime(acc.ledger, es[i + 1])
  {
    JudgeLogged(acc.ledger, base, log, all, es[0]);
    ProjectKeeps(base, Of(acc.ledger.events, base.id));
    if Judge(acc.ledger, es[0]).Accept? {
      AcceptedFirst(acc, base, log, all, es);
    }
  }

  lemma {:induction false} IngestsInTime(acc: Ingested, base: Run, log: seq<Event>, all: seq<Event>, es: seq<Event>)
    requires Follower(acc.ledger, base, log, all) && SeqsAscend(es)
    requires forall i :: 0 <= i < |es| ==> es[i] in log
    ensures IngestFrom(acc, es).Ok? <==> forall i :: 0 <= i < |es| ==> InTime(acc.ledger, es[i])
    decreases |es|
  {
    if es != [] {
      FirstInTime(acc, base, log, all, es);
      if IngestOne(acc, es[0]).Ok? {
        var next := IngestOne(acc, es[0]).value;
        IngestsInTime(next, base, log, all, es[1..]);
        assert forall i :: 1 <= i < |es| ==> InTime(next.ledger, es[1..][i - 1]) == InTime(acc.ledger, es[i]);
      }
    }
  }

  lemma {:induction false} ServerFollows(c: Config, s: System, runId: Uuid) returns (base: Run)
    requires Invariant(c, s) && runId in s.server.runs && StatusesAdvance(Kinds(Log(s.store, runId)))
    ensures base.id == runId && s.server.runs[runId].id == runId
    ensures Follower(LedgerOf(s.server, runId), base, Log(s.store, runId), EventsOf(s.store.rows))
  {
    assert RunInvariant(s.store, runId) && RowInvariant(c, s, runId);
    var local, accepted := s.store.runs[runId], AcceptedOf(s.server, runId);
    var at :| ProjectedSince(s.server.runs[runId], local, c.workspaceId, accepted, at);
    base := NewRun(local, c.workspaceId, at);
    ProjectKeeps(base, accepted);
    AcceptedIsSubLog(c, s, runId);
  }

  lemma {:induction false} OvertakenIsLate(c: Config, s: System, runId: Uuid, e: Event)
    requires Invariant(c, s) && runId in s.server.runs && e in Log(s.store, runId)
    ensures Overtaken(AcceptedOf(s.server, runId), e) <==> !InTime(LedgerOf(s.server, runId), e)
  {
    var accepted := AcceptedOf(s.server, runId);
    RowHasId(c, s, runId);
    assert RunInvariant(s.store, runId);
    AcceptedIsSubLog(c, s, runId);
    if !InTime(LedgerOf(s.server, runId), e) {
      assert e.seqNo >= 1;
      assert accepted[|accepted| - 1].seqNo >= e.seqNo;
    }
  }

  lemma {:induction false} SortedMembers(batch: seq<Event>)
    ensures SeqsAscend(SortedBySeq(batch))
    ensures forall e :: e in batch <==> e in SortedBySeq(batch)
  {
    SortedBySeqSorts(batch);
    forall e ensures e in batch <==> e in SortedBySeq(batch) {
      assert e in batch <==> e in multiset(batch);
      assert e in SortedBySeq(batch) <==> e in multiset(SortedBySeq(batch));
    }
  }

  lemma {:induction false} AcceptsInTime(c: Config, s: System, runId: Uuid, batch: seq<Event>)
    requires Invariant(c, s) && runId in s.server.runs && StatusesAdvance(Kinds(Log(s.store, runId)))
    requires forall e :: e in batch ==> e in Log(s.store, runId)
    ensures Accepts(s.server, runId, batch) <==> forall e :: e in batch ==> InTime(LedgerOf(s.server, runId), e)
  {
    var base := ServerFollows(c, s, runId);
    SortedMembers(batch);
    LedgerAcceptsInTime(LedgerOf(s.server, runId), base, Log(s.store, runId), EventsOf(s.store.rows), batch);
  }

  lemma {:induction false} LedgerAcceptsInTime(l: Ledger, base: Run, log: seq<Event>, all: seq<Event>, batch: seq<Event>)
    requires Follower(l, base, log, all) && forall e :: e in batch ==> e in log
    ensures IngestBatch(l, batch).Ok? <==> forall e :: e in batch ==> InTime(l, e)
  {
    SortedMembers(batch);
    IngestsInTime(Start(l), base, log, all, SortedBySeq(batch));
  }

  /**
   The server refuses an upload of logged events exactly if a later event has overtaken
   one of them: whatever was lost before, the transition table is never in the way.
   */
  lemma {:induction false} RefusedIffOvertaken(c: Config, steps: seq<Step>, runId: Uuid, batch: seq<Event>)
    requires Possible(c, START, steps)
    requires var s := After(c, START, steps);
             runId in s.server.runs && StatusesAdvance(Kinds(Log(s.store, runId))) && forall e :: e in batch ==> e in Log(s.store, runId)
    ensures var s := After(c, START, steps);
            Accepts(s.server, runId, batch) <==> forall e :: e in batch ==> !Overtaken(AcceptedOf(s.server, runId), e)
  {
    var s := After(c, START, steps);
    StartInvariant(c);
    HistoryKeeps(c, START, steps);
    AcceptsInTime(c, s, runId, batch);
    forall e | e in batch ensures Overtaken(AcceptedOf(s.server, runId), e) <==> !InTime(LedgerOf(s.server, runId), e) {
      OvertakenIsLate(c, s, runId, e);
    }
  }

  lemma {:induction false} OvertakenStays(before: seq<Event>, after: seq<Event>, e: Event)
    requires Overtaken(before, e) && before <= after && SeqsIncrease(after)
    ensures Overtaken(after, e)
  {
    var i :| 0 <= i < |before| && before[i].seqNo >= e.seqNo;
    assert after[i] == before[i];
    forall k | 0 <= k < |after| ensures after[k] != e {
      assert if k < |before| then after[k] == before[k] else after[k].seqNo > after[i].seqNo;
    }
  }

  /** An overtaken event is never accepted, and never marked as delivered, in any continuation. */
  lemma {:induction false} OvertakenForever(c: Config, steps: seq<Step>, more: seq<Step>, runId: Uuid, e: Event)
    requires Possible(c, START, steps) && Possible(c, After(c, START, steps), more)
    requires e in Log(After(c, START, steps).store, runId)
    requires Overtaken(AcceptedOf(After(c, START, steps).server, runId), e)
    ensures var s := After(c, After(c, START, steps), more);
            && Overtaken(AcceptedOf(s.server, runId), e)
            && forall i :: 0 <= i < |s.store.rows| && s.store.rows[i].event == e ==> !s.store.rows[i].delivered
  {
    var s := After(c, START, steps);
    var t := After(c, s, more);
    StartInvariant(c);
    HistoryKeeps(c, START, steps);
    HistoryKeeps(c, s, more);
    OfMembers(EventsOf(s.store.rows), runId);
    OfGrows(s.server.events, t.server.events, runId);
    assert SeqsIncrease(AcceptedOf(t.server, runId));
    OvertakenStays(AcceptedOf(s.server, runId), AcceptedOf(t.server, runId), e);
    OfMembers(t.server.events, runId);
  }
}
