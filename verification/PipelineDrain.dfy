/**
 How long one drain of the outbox goes on, and what becomes of the rows of a batch
 (cli/src/runbuoy/networking/client.py: drain_pending, flush_pending).
 */
module PipelineDrain {
  import opened Arithmetic
  import opened Wrappers
  import opened Events
  import opened Queue
  import opened Ingest
  import opened Pipeline

  /** How often pending events were read. */
  function Fetches(steps: seq<Step>): nat {
    if steps == [] then 0 else Fetches(steps[1..]) + if steps[0].Fetch? then 1 else 0
  }

  /** No new drain begins, and this one is not cut off. */
  predicate OneDrain(steps: seq<Step>) {
    forall i :: 0 <= i < |steps| ==> !steps[i].StartDrain? && !steps[i].Crash?
  }

  /** How many events have left the outbox since pending events were last read, if `n` had before. */
  ghost function LeftSince(c: Config, s: System, steps: seq<Step>, n: nat): nat
    requires Possible(c, s, steps)
    decreases |steps|
  {
    if steps == [] then n
    else LeftSince(c, Next(c, s, steps[0]), steps[1..],
                   match steps[0]
                   case Fetch(_) => 0
                   case MarkDelivered => n + |s.drainer.groups[0].batch|
                   case _ => n)
  }

  /** What is left of a limit. */
  predicate LimitLeft(limit: Option<nat>, fetched: nat, budget: Option<nat>) {
    match limit
    case None => budget == None
    case Some(n) => fetched <= n && budget == Some(n - fetched)
  }

  predicate Within(limit: Option<nat>, fetched: nat) {
    limit.Some? ==> fetched < limit.value
  }

  /** The drainer knows what it has read and what has left. */
  predicate Counts(d: Drainer, limit: Option<nat>, fetched: nat, left: nat) {
    match d
    case Idle => true
    case Fetching(budget) => LimitLeft(limit, fetched, budget) && Within(limit, fetched)
    case Flushing(_, _, delivered, budget) => LimitLeft(limit, fetched, budget) && delivered == left
  }

  lemma {:induction false} CountsOn(c: Config, s: System, steps: seq<Step>, limit: Option<nat>, fetched: nat, left: nat)
    requires Possible(c, s, steps) && OneDrain(steps) && Counts(s.drainer, limit, fetched, left)
    ensures Counts(After(c, s, steps).drainer, limit, fetched + Fetches(steps), LeftSince(c, s, steps, left))
    ensures Fetches(steps) > 0 ==> limit.Some? ==> fetched + Fetches(steps) <= limit.value
    decreases |steps|
  {
    if steps != [] {
      var step := steps[0];
      var more := if step.Fetch? then 1 else 0;
      var left1 := match step
        case Fetch(_) => 0
        case MarkDelivered => left + |s.drainer.groups[0].batch|
        case _ => left;
      assert Counts(Next(c, s, step).drainer, limit, fetched + more, left1);
      CountsOn(c, Next(c, s, step), steps[1..], limit, fetched + more, left1);
    }
  }

  /**
   One drain, whatever the store, the network and other processes do meanwhile: it reads
   pending events at most as often as its limit says; and after each flush it goes on exactly
   if a whole batch of events has left the outbox in it and the limit is not reached.
   */
  lemma {:induction false} DrainGoesOn(c: Config, s: System, retryAll: bool, limit: Option<nat>, steps: seq<Step>)
    requires s.drainer.Idle? && Possible(c, Next(c, s, StartDrain(retryAll, limit)), steps) && OneDrain(steps)
    ensures limit.Some? ==> Fetches(steps) <= limit.value
    ensures var began := Next(c, s, StartDrain(retryAll, limit));
            var now := After(c, began, steps);
            Enabled(c, now, EndFlush) ==>
              (Next(c, now, EndFlush).drainer.Fetching? <==> LeftSince(c, began, steps, 0) >= c.batchSize && Within(limit, Fetches(steps)))
  {
    CountsOn(c, Next(c, s, StartDrain(retryAll, limit)), steps, limit, 0, 0);
  }

  // The rows of a batch.

  predicate InBatch(r: Row, batch: seq<Event>) {
    exists k :: 0 <= k < |batch| && batch[k].id == r.event.id
  }

  /** The highest number of attempts of a row of the run, or zero. */
  predicate IsMost(rows: seq<Row>, runId: Uuid, most: nat) {
    && (forall i :: 0 <= i < |rows| && rows[i].event.runId == runId ==> rows[i].attempts <= most)
    && (most == 0 || exists i :: 0 <= i < |rows| && rows[i].event.runId == runId && rows[i].attempts == most)
  }

  /** It doubles with every attempt from one second, and is a minute from the seventh on. */
  function Delay(most: nat): nat {
    match most
    case 0 => 1
    case 1 => 2
    case 2 => 4
    case 3 => 8
    case 4 => 16
    case 5 => 32
    case _ => 60
  }

  lemma {:induction false} MostIs(rows: seq<Row>, runId: Uuid)
    ensures IsMost(rows, runId, MostAttempts(rows, runId))
    decreases |rows|
  {
    if rows != [] {
      var n := |rows| - 1;
      MostIs(rows[..n], runId);
      var most := MostAttempts(rows[..n], runId);
      if most > 0 {
        var i :| 0 <= i < n && rows[..n][i].event.runId == runId && rows[..n][i].attempts == most;
        assert rows[i].attempts == most;
      }
      assert forall i :: 0 <= i < n ==> rows[..n][i] == rows[i];
    }
  }

  lemma {:induction false} BackoffIs(most: nat)
    ensures Backoff(most) == Delay(most)
  {
    assert Pow2(2) == 4 && Pow2(4) == 16;
    assert Pow2(6) == 64;
    if most >= 6 { AtLeast64(most); }
  }

  lemma {:induction false} AtLeast64(n: nat)
    requires n >= 6
    ensures Pow2(n) >= 64
  {
    if n > 6 {
      AtLeast64(n - 1);
    } else {
      assert Pow2(4) == 16;
    }
  }

  /** A batch that has failed: exactly its rows count one more attempt and wait, the longer the more the run has had. */
  lemma {:induction false} FailureBacksOff(c: Config, s: System, now: nat, most: nat)
    requires Enabled(c, s, MarkFailed(now)) && IsMost(s.store.rows, s.drainer.groups[0].runId, most)
    ensures var after, batch := Next(c, s, MarkFailed(now)), s.drainer.groups[0].batch;
            && after.server == s.server && after.store.runs == s.store.runs && |after.store.rows| == |s.store.rows|
            && forall i :: 0 <= i < |s.store.rows| ==>
                 var r := s.store.rows[i];
                 after.store.rows[i] == if InBatch(r, batch) then r.(attempts := r.attempts + 1, nextAttempt := now + Delay(most)) else r
  {
    var g := s.drainer.groups[0];
    MostIs(s.store.rows, g.runId);
    OneMost(s.store.rows, g.runId, most, MostAttempts(s.store.rows, g.runId));
    BackoffIs(most);
    assert forall i :: 0 <= i < |s.store.rows| ==> (InBatch(s.store.rows[i], g.batch) <==> HasEventId(g.batch, s.store.rows[i].event.id));
  }

  lemma OneMost(rows: seq<Row>, runId: Uuid, a: nat, b: nat)
    requires IsMost(rows, runId, a) && IsMost(rows, runId, b)
    ensures a == b
  {
  }

  /** A batch that was answered: exactly its rows are delivered, and nothing else changes. */
  lemma {:induction false} AnswerDelivers(c: Config, s: System)
    requires Enabled(c, s, MarkDelivered)
    ensures var after, batch := Next(c, s, MarkDelivered), s.drainer.groups[0].batch;
            && after.server == s.server && after.store.runs == s.store.runs && |after.store.rows| == |s.store.rows|
            && forall i :: 0 <= i < |s.store.rows| ==>
                 after.store.rows[i] == if InBatch(s.store.rows[i], batch) then s.store.rows[i].(delivered := true) else s.store.rows[i]
  {
    var g := s.drainer.groups[0];
    assert forall i :: 0 <= i < |s.store.rows| ==> (InBatch(s.store.rows[i], g.batch) <==> HasEventId(g.batch, s.store.rows[i].event.id));
  }

  // What is read.

  /** The event has not left the outbox and may be tried again. */
  predicate Awaits(rows: seq<Row>, e: Event, now: nat) {
    exists i :: 0 <= i < |rows| && rows[i].event == e && !rows[i].delivered && rows[i].nextAttempt <= now
  }

  predicate NotAfter(a: Event, b: Event) {
    if a.runId == b.runId then a.seqNo <= b.seqNo else a.runId < b.runId
  }

  /** Pending events are read by run and seq, up to the limit, and none that may be tried is passed over for one behind it. */
  lemma {:induction false} WhatIsRead(s: Store, limit: nat, now: nat)
    ensures var read := Pending(s, limit, now);
            && |read| <= limit
            && (forall j, k :: 0 <= j < k < |read| ==> NotAfter(read[j], read[k]))
            && (forall e :: e in read ==> Awaits(s.rows, e, now))
            && (forall e :: Awaits(s.rows, e, now) && e !in read ==> |read| == limit && forall j :: 0 <= j < |read| ==> NotAfter(read[j], e))
  {
    var due, read := OrderedByRun(DueEvents(s.rows, now)), Pending(s, limit, now);
    DueInOrder(s, now);
    forall j, k | 0 <= j < k < |due| ensures NotAfter(due[j], due[k]) {
      assert Precedes(due[j], due[k]);
    }
    forall e ensures e in due <==> Awaits(s.rows, e, now) {
      assert e in due <==> IsDue(s, now, e);
      if IsDue(s, now, e) {
        var i :| 0 <= i < |s.rows| && s.rows[i].event == e && Due(s.rows[i], now);
      }
      if i :| 0 <= i < |s.rows| && s.rows[i].event == e && !s.rows[i].delivered && s.rows[i].nextAttempt <= now {
        assert Due(s.rows[i], now);
      }
    }
    forall e | Awaits(s.rows, e, now) && e !in read ensures |read| == limit && forall j :: 0 <= j < |read| ==> NotAfter(read[j], e) {
      var k :| 0 <= k < |due| && due[k] == e;
      assert forall j :: 0 <= j < |read| ==> read[j] == due[j];
      assert k >= |read|;
    }
  }
}
