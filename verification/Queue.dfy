/**
 The local store of runs and events (cli/src/runbuoy/persistence/store.py, class
 EventQueue).  Every method is one SQLite transaction.  New event ids and the clock
 are inputs; the check for forbidden payload keys, the columns that only the local
 user interface reads and the machine-name outbox are not modelled.
 */
module Queue {
  import opened Wrappers
  import opened Events
  import opened Arithmetic
  import opened Sequences

  /** A row of the events table. */
  datatype Row = Row(event: Event, delivered: bool, attempts: nat, nextAttempt: nat)

  /** Both tables; rows are in the order in which they were inserted. */
  datatype Store = Store(runs: map<Uuid, LocalRun>, rows: seq<Row>)

  datatype AppendError = UnknownRun | AlreadyTerminal

  /** The events of one run, in the order of a list. */
  function Of(es: seq<Event>, runId: Uuid): seq<Event> {
    if es == [] then []
    else Of(es[..|es| - 1], runId) + if es[|es| - 1].runId == runId then [es[|es| - 1]] else []
  }

  function EventsOf(rows: seq<Row>): seq<Event> {
    seq(|rows|, i requires 0 <= i < |rows| => rows[i].event)
  }

  /** The local event log of a run. */
  function Log(s: Store, runId: Uuid): seq<Event> {
    Of(EventsOf(s.rows), runId)
  }

  /** `COALESCE(MAX(seq), 0) + 1` over the events of a run. */
  function NextSeq(es: seq<Event>): nat {
    if es == [] then 1
    else Max(NextSeq(es[..|es| - 1]), es[|es| - 1].seqNo + 1)
  }

  function NewLocalRun(id: Uuid, machineId: string, title: string, source: string, policy: LivePolicy, at: int): LocalRun {
    LocalRun(id, machineId, title, source, policy, CREATED, None, None, None, None, None, at, None, false)
  }

  const EMPTY_PAYLOAD := Payload(Absent, Absent, Absent, Absent, Absent, Absent, Absent)

  function Appended(s: Store, runId: Uuid, kind: EventType, payload: Payload, at: int, eventId: Uuid): Store
    requires runId in s.runs
  {
    var run := s.runs[runId];
    var e := Event(eventId, runId, run.machineId, NextSeq(Log(s, runId)), kind, at, payload);
    Store(s.runs[runId := LocalApply(run, e)], s.rows + [Row(e, false, 0, 0)])
  }

  function Created(s: Store, run: LocalRun, payload: Payload, eventId: Uuid): Store {
    Appended(s.(runs := s.runs[run.id := run]), run.id, RunCreated, payload, run.updatedAt, eventId)
  }

  function Initialized(s: Store, runId: Uuid): Store
    requires runId in s.runs
  {
    s.(runs := s.runs[runId := s.runs[runId].(remoteInitialized := true)])
  }

  predicate HasEventId(batch: seq<Event>, id: Uuid) {
    exists i :: 0 <= i < |batch| && batch[i].id == id
  }

  function RetriedRow(r: Row): Row {
    if r.delivered then r else r.(nextAttempt := 0)
  }

  function DeliveredRow(r: Row, batch: seq<Event>): Row {
    if HasEventId(batch, r.event.id) then r.(delivered := true) else r
  }

  function FailedRow(r: Row, batch: seq<Event>, retryAt: nat): Row {
    if HasEventId(batch, r.event.id) then r.(attempts := r.attempts + 1, nextAttempt := retryAt) else r
  }

  function RetriedAll(s: Store): Store {
    s.(rows := seq(|s.rows|, i requires 0 <= i < |s.rows| => RetriedRow(s.rows[i])))
  }

  function Delivered(s: Store, batch: seq<Event>): Store {
    s.(rows := seq(|s.rows|, i requires 0 <= i < |s.rows| => DeliveredRow(s.rows[i], batch)))
  }

  function FailedRows(s: Store, batch: seq<Event>, retryAt: nat): Store {
    s.(rows := seq(|s.rows|, i requires 0 <= i < |s.rows| => FailedRow(s.rows[i], batch, retryAt)))
  }

  /** The largest attempt count of a run's rows, zero if it has none. */
  function MostAttempts(rows: seq<Row>, runId: Uuid): nat {
    if rows == [] then 0
    else
      var r, rest := rows[|rows| - 1], MostAttempts(rows[..|rows| - 1], runId);
      if r.event.runId == runId && r.attempts > rest then r.attempts else rest
  }

  /** `min(2**attempts, 60)` */
  function Backoff(attempts: nat): nat {
    if Pow2(attempts) <= 60 then Pow2(attempts) else 60
  }

  // The pending events: undelivered, due, ordered by run and seq, at most `limit`.

  predicate Due(r: Row, now: nat) {
    !r.delivered && r.nextAttempt <= now
  }

  function DueEvents(rows: seq<Row>, now: nat): seq<Event> {
    if rows == [] then []
    else DueEvents(rows[..|rows| - 1], now) + if Due(rows[|rows| - 1], now) then [rows[|rows| - 1].event] else []
  }

  predicate Precedes(a: Event, b: Event) {
    a.runId < b.runId || (a.runId == b.runId && a.seqNo <= b.seqNo)
  }

  predicate Earlier(a: Event, b: Event) {
    a.runId == b.runId && a.seqNo < b.seqNo
  }

  predicate Ordered(es: seq<Event>) {
    forall j, k :: 0 <= j < k < |es| ==> Precedes(es[j], es[k])
  }

  function Inserted(es: seq<Event>, e: Event): seq<Event> {
    if es == [] || Precedes(es[|es| - 1], e) then es + [e]
    else Inserted(es[..|es| - 1], e) + [es[|es| - 1]]
  }

  function OrderedByRun(es: seq<Event>): seq<Event> {
    if es == [] then [] else Inserted(OrderedByRun(es[..|es| - 1]), es[|es| - 1])
  }

  function Pending(s: Store, limit: nat, now: nat): seq<Event> {
    var due := OrderedByRun(DueEvents(s.rows, now));
    if |due| <= limit then due else due[..limit]
  }

  /** The number of undelivered rows. */
  function PendingCount(rows: seq<Row>): nat {
    if rows == [] then 0 else PendingCount(rows[..|rows| - 1]) + if rows[|rows| - 1].delivered then 0 else 1
  }

  class EventQueue {
    var runs: map<Uuid, LocalRun>
    var rows: seq<Row>

    function View(): Store
      reads this
    {
      Store(runs, rows)
    }

    constructor ()
      ensures View() == Store(map[], [])
    {
      runs := map[];
      rows := [];
    }

    method CreateRun(runId: Uuid, machineId: string, title: string, source: string, policy: LivePolicy,
                     payload: Payload, at: int, eventId: Uuid) returns (e: Event)
      requires runId !in runs
      modifies this
      ensures View() == Created(old(View()), NewLocalRun(runId, machineId, title, source, policy, at), payload, eventId)
      ensures rows == old(rows) + [Row(e, false, 0, 0)]
    {
      runs := runs[runId := NewLocalRun(runId, machineId, title, source, policy, at)];
      e := AppendInTransaction(runId, RunCreated, payload, at, eventId);
    }

    method AppendEvent(runId: Uuid, kind: EventType, payload: Payload, at: int, eventId: Uuid)
      returns (r: Result<Event, AppendError>)
      modifies this
      ensures match r
              case Err(UnknownRun) => runId !in runs && View() == old(View())
              case Err(AlreadyTerminal) => runId in runs && IsTerminal(runs[runId].status) && View() == old(View())
              case Ok(e) =>
                && runId in old(runs) && !IsTerminal(old(runs)[runId].status)
                && View() == Appended(old(View()), runId, kind, payload, at, eventId)
                && rows == old(rows) + [Row(e, false, 0, 0)]
    {
      if runId !in runs {
        return Err(UnknownRun);
      }
      if IsTerminal(runs[runId].status) {
        return Err(AlreadyTerminal);
      }
      var e := AppendInTransaction(runId, kind, payload, at, eventId);
      return Ok(e);
    }

    method AppendInTransaction(runId: Uuid, kind: EventType, payload: Payload, at: int, eventId: Uuid) returns (e: Event)
      requires runId in runs
      modifies this
      ensures View() == Appended(old(View()), runId, kind, payload, at, eventId)
      ensures rows == old(rows) + [Row(e, false, 0, 0)]
    {
      var run := runs[runId];
      e := Event(eventId, runId, run.machineId, NextSeq(Log(View(), runId)), kind, at, payload);
      rows := rows + [Row(e, false, 0, 0)];
      run := run.(updatedAt := at);
      var status := EventStatus(kind);
      if status.Some? {
        run := run.(status := status.value);
      }
      if kind == RunStarted {
        run := run.(startedAt := Some(at));
      }
      if status.Some? && IsTerminal(status.value) {
        run := run.(endedAt := Some(at), exitCode := Merged(payload.exitCode, None));
      }
      if payload.progress.Present? {
        run := run.(progress := payload.progress.value);
      }
      if payload.phase.Present? {
        run := run.(phase := payload.phase.value);
      }
      if payload.message.Present? {
        run := run.(message := payload.message.value);
      }
      runs := runs[runId := run];
    }

    method PendingEventCount() returns (count: nat)
      ensures count == PendingCount(rows)
    {
      count := 0;
      for i := 0 to |rows|
        invariant count == PendingCount(rows[..i])
      {
        assert rows[..i + 1][..i] == rows[..i];
        if !rows[i].delivered {
          count := count + 1;
        }
      }
      assert rows[..|rows|] == rows;
    }

    method MarkRemoteInitialized(runId: Uuid)
      requires runId in runs
      modifies this
      ensures View() == Initialized(old(View()), runId)
    {
      runs := runs[runId := runs[runId].(remoteInitialized := true)];
    }

    method RetryAllPendingNow()
      modifies this
      ensures View() == RetriedAll(old(View()))
    {
      var updated := [];
      for i := 0 to |rows|
        invariant rows == old(rows) && |updated| == i
        invariant forall j :: 0 <= j < i ==> updated[j] == RetriedRow(rows[j])
      {
        updated := updated + [if rows[i].delivered then rows[i] else rows[i].(nextAttempt := 0)];
      }
      rows := updated;
    }

    method MarkDelivered(batch: seq<Event>)
      modifies this
      ensures View() == Delivered(old(View()), batch)
    {
      var updated := [];
      for i := 0 to |rows|
        invariant rows == old(rows) && |updated| == i
        invariant forall j :: 0 <= j < i ==> updated[j] == DeliveredRow(rows[j], batch)
      {
        var row := rows[i];
        if HasEventId(batch, row.event.id) {
          row := row.(delivered := true);
        }
        updated := updated + [row];
      }
      rows := updated;
    }

    method MarkFailed(batch: seq<Event>, now: nat, delay: nat)
      modifies this
      ensures View() == FailedRows(old(View()), batch, now + delay)
    {
      var updated := [];
      for i := 0 to |rows|
        invariant rows == old(rows) && |updated| == i
        invariant forall j :: 0 <= j < i ==> updated[j] == FailedRow(rows[j], batch, now + delay)
      {
        var row := rows[i];
        if HasEventId(batch, row.event.id) {
          row := row.(attempts := row.attempts + 1, nextAttempt := now + delay);
        }
        updated := updated + [row];
      }
      rows := updated;
    }
  }

  // Lists of events.

  lemma {:induction false} OfSnoc(es: seq<Event>, e: Event, runId: Uuid)
    ensures Of(es + [e], runId) == Of(es, runId) + if e.runId == runId then [e] else []
  {
    assert (es + [e])[..|es|] == es;
  }

  lemma {:induction false} OfConcat(a: seq<Event>, b: seq<Event>, runId: Uuid)
    ensures Of(a + b, runId) == Of(a, runId) + Of(b, runId)
    decreases |b|
  {
    if b == [] {
      assert a + b == a;
    } else {
      var n := |b| - 1;
      InitAndLast(b);
      OfConcat(a, b[..n], runId);
      OfSnoc(a + b[..n], b[n], runId);
      ConcatAssociates(a, b[..n], [b[n]]);
      OfSnoc(b[..n], b[n], runId);
    }
  }

  lemma {:induction false} OfGrows(es: seq<Event>, more: seq<Event>, runId: Uuid)
    requires es <= more
    ensures Of(es, runId) <= Of(more, runId)
  {
    assert more == es + more[|es|..];
    OfConcat(es, more[|es|..], runId);
  }

  lemma {:induction false} OfMembers(es: seq<Event>, runId: Uuid)
    ensures forall e :: e in Of(es, runId) <==> e in es && e.runId == runId
    decreases |es|
  {
    if es != [] {
      InitAndLast(es);
      OfMembers(es[..|es| - 1], runId);
    }
  }

  lemma {:induction false} OfNone(es: seq<Event>, runId: Uuid)
    requires forall i :: 0 <= i < |es| ==> es[i].runId != runId
    ensures Of(es, runId) == []
    decreases |es|
  {
    if es != [] {
      OfNone(es[..|es| - 1], runId);
    }
  }

  lemma {:induction false} OfAll(es: seq<Event>, runId: Uuid)
    requires forall i :: 0 <= i < |es| ==> es[i].runId == runId
    ensures Of(es, runId) == es
    decreases |es|
  {
    if es != [] {
      InitAndLast(es);
      OfAll(es[..|es| - 1], runId);
    }
  }

  /** Marking rows leaves the logs as they are. */
  lemma MarkingKeepsLogs(s: Store, batch: seq<Event>, retryAt: nat)
    ensures EventsOf(RetriedAll(s).rows) == EventsOf(s.rows)
    ensures EventsOf(Delivered(s, batch).rows) == EventsOf(s.rows)
    ensures EventsOf(FailedRows(s, batch, retryAt).rows) == EventsOf(s.rows)
  {
  }

  predicate AllPrecede(es: seq<Event>, e: Event) {
    forall i :: 0 <= i < |es| ==> Precedes(es[i], e)
  }

  lemma {:induction false} InsertedPrecede(es: seq<Event>, e: Event, last: Event)
    requires AllPrecede(es, last) && Precedes(e, last)
    ensures AllPrecede(Inserted(es, e), last)
    decreases |es|
  {
    if es != [] && !Precedes(es[|es| - 1], e) {
      InsertedPrecede(es[..|es| - 1], e, last);
    }
  }

  lemma {:induction false} InsertedOrders(es: seq<Event>, e: Event)
    requires Ordered(es)
    ensures Ordered(Inserted(es, e))
    decreases |es|
  {
    if es != [] {
      var n := |es| - 1;
      if Precedes(es[n], e) {
        assert AllPrecede(es, es[n]) && AllPrecede(es, e);
      } else {
        InsertedOrders(es[..n], e);
        assert AllPrecede(es[..n], es[n]);
        InsertedPrecede(es[..n], e, es[n]);
      }
    }
  }

  lemma {:induction false} InsertedMembers(es: seq<Event>, e: Event)
    ensures multiset(Inserted(es, e)) == multiset(es) + multiset{e}
    decreases |es|
  {
    if es != [] && !Precedes(es[|es| - 1], e) {
      InitAndLast(es);
      InsertedMembers(es[..|es| - 1], e);
    }
  }

  lemma {:induction false} OrderedByRunOrders(es: seq<Event>)
    ensures Ordered(OrderedByRun(es))
    ensures multiset(OrderedByRun(es)) == multiset(es)
    decreases |es|
  {
    if es != [] {
      var n := |es| - 1;
      InitAndLast(es);
      OrderedByRunOrders(es[..n]);
      InsertedOrders(OrderedByRun(es[..n]), es[n]);
      InsertedMembers(OrderedByRun(es[..n]), es[n]);
    }
  }

  lemma {:induction false} DueEventsAre(rows: seq<Row>, now: nat)
    ensures forall e :: e in DueEvents(rows, now) <==> exists i :: 0 <= i < |rows| && rows[i].event == e && Due(rows[i], now)
    decreases |rows|
  {
    if rows != [] {
      var n := |rows| - 1;
      InitAndLast(rows);
      DueEventsAre(rows[..n], now);
      forall e | e in DueEvents(rows, now)
        ensures exists i :: 0 <= i < |rows| && rows[i].event == e && Due(rows[i], now)
      {
        if e in DueEvents(rows[..n], now) {
          var i :| 0 <= i < n && rows[..n][i].event == e && Due(rows[..n][i], now);
          assert rows[i].event == e && Due(rows[i], now);
        } else {
          assert rows[n].event == e && Due(rows[n], now);
        }
      }
      forall e | exists i :: 0 <= i < |rows| && rows[i].event == e && Due(rows[i], now)
        ensures e in DueEvents(rows, now)
      {
        var i :| 0 <= i < |rows| && rows[i].event == e && Due(rows[i], now);
        if i < n {
          assert rows[..n][i].event == e && Due(rows[..n][i], now);
        }
      }
    }
  }

  /** `e` is the event of a due row. */
  predicate IsDue(s: Store, now: nat, e: Event) {
    exists i :: 0 <= i < |s.rows| && s.rows[i].event == e && Due(s.rows[i], now)
  }

  lemma {:induction false} DueInOrder(s: Store, now: nat)
    ensures var due := OrderedByRun(DueEvents(s.rows, now));
            Ordered(due) && forall e :: e in due <==> IsDue(s, now, e)
  {
    var events := DueEvents(s.rows, now);
    OrderedByRunOrders(events);
    DueEventsAre(s.rows, now);
    forall e ensures e in OrderedByRun(events) <==> IsDue(s, now, e) {
      assert e in OrderedByRun(events) <==> e in multiset(OrderedByRun(events));
      assert e in events <==> e in multiset(events);
    }
  }

  /**
   Every pending event is due, and a due event that precedes a pending one in its run
   is pending itself.
   */
  lemma {:induction false} PendingIsFirstDue(s: Store, limit: nat, now: nat)
    ensures var p := Pending(s, limit, now);
            && |p| <= limit && Ordered(p)
            && (forall e :: e in p ==> IsDue(s, now, e))
            && (forall e, x :: e in p && IsDue(s, now, x) && Earlier(x, e) ==> x in p)
  {
    var due := OrderedByRun(DueEvents(s.rows, now));
    var p := Pending(s, limit, now);
    DueInOrder(s, now);
    forall e | e in p ensures IsDue(s, now, e) {
      assert e in due;
    }
    forall e, x | e in p && IsDue(s, now, x) && Earlier(x, e) ensures x in p {
      var j :| 0 <= j < |p| && p[j] == e;
      var k :| 0 <= k < |due| && due[k] == x;
      assert p[j] == due[j] && !Precedes(due[j], due[k]);
      assert k < j;
      assert p[k] == x;
    }
  }
}
