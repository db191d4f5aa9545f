/**
 Ingestion of an event batch (server/app/services.py: _validate_transition,
 ingest_events; server/app/api.py: ingest_run_events).

 The whole request is one transaction: a batch that fails leaves no trace.
 Authentication and request accounting come before this code and are not modelled.
 The pushes that an accepted event schedules are returned as a list.
 */
module Ingest {
  import opened Wrappers
  import opened Events

  datatype IngestError =
    | ReplayMismatch        // the event_id belongs to another event
    | SeqTaken              // the seq belongs to another event
    | OutOfOrder            // a later event has been accepted already
    | OwnershipMismatch
    | TerminalImmutable
    | IllegalTransition

  /** A Run row and the RunEvent table, in the order in which rows were inserted. */
  datatype Ledger = Ledger(run: Run, events: seq<Event>)

  /** A call of `schedule_run_pushes`: the event, the row after it and the progress before it. */
  datatype PushCall = PushCall(kind: EventType, run: Run, previousProgress: Option<Progress>)

  datatype Ingested = Ingested(ledger: Ledger, inserted: seq<Uuid>, duplicates: seq<Uuid>, pushes: seq<PushCall>)

  datatype Verdict = Duplicate | Accept | Reject(error: IngestError)

  predicate HasId(events: seq<Event>, id: Uuid) {
    exists i :: 0 <= i < |events| && events[i].id == id
  }

  predicate HasSeq(events: seq<Event>, runId: Uuid, n: nat) {
    exists i :: 0 <= i < |events| && events[i].runId == runId && events[i].seqNo == n
  }

  /** The event was accepted before: same id, run, seq and type. */
  predicate Known(events: seq<Event>, runId: Uuid, e: Event) {
    exists i :: 0 <= i < |events| && events[i].id == e.id && events[i].runId == runId
                && events[i].seqNo == e.seqNo && events[i].kind == e.kind
  }

  predicate UniqueIds(events: seq<Event>) {
    forall j, k :: 0 <= j < k < |events| ==> events[j].id != events[k].id
  }

  function Transition(run: Run, e: Event): Option<IngestError> {
    var next := EventStatus(e.kind);
    if IsTerminal(run.status) then Some(TerminalImmutable)
    else if next.Some? && !Allowed(run.status, next.value) then Some(IllegalTransition)
    else None
  }

  function Judge(l: Ledger, e: Event): Verdict {
    if HasId(l.events, e.id) then
      if Known(l.events, l.run.id, e) then Duplicate else Reject(ReplayMismatch)
    else if HasSeq(l.events, l.run.id, e.seqNo) then Reject(SeqTaken)
    else if e.seqNo <= l.run.lastSeq then Reject(OutOfOrder)
    else if e.runId != l.run.id || e.machineId != l.run.machineId then Reject(OwnershipMismatch)
    else match Transition(l.run, e)
      case Some(error) => Reject(error)
      case None => Accept
  }

  function Accepted(acc: Ingested, e: Event): Ingested {
    var run := Apply(acc.ledger.run, e);
    Ingested(Ledger(run, acc.ledger.events + [e]), acc.inserted + [e.id], acc.duplicates,
             acc.pushes + [PushCall(e.kind, run, acc.ledger.run.progress)])
  }

  function IngestOne(acc: Ingested, e: Event): Result<Ingested, IngestError> {
    match Judge(acc.ledger, e)
    case Duplicate => Ok(acc.(duplicates := acc.duplicates + [e.id]))
    case Accept => Ok(Accepted(acc, e))
    case Reject(error) => Err(error)
  }

  function Start(l: Ledger): Ingested {
    Ingested(l, [], [], [])
  }

  function IngestFrom(acc: Ingested, es: seq<Event>): Result<Ingested, IngestError>
    decreases |es|
  {
    if es == [] then Ok(acc)
    else match IngestOne(acc, es[0])
      case Ok(next) => IngestFrom(next, es[1..])
      case Err(error) => Err(error)
  }

  // Order within a batch.

  function Insert(es: seq<Event>, e: Event): seq<Event> {
    if es == [] || es[|es| - 1].seqNo <= e.seqNo then es + [e]
    else Insert(es[..|es| - 1], e) + [es[|es| - 1]]
  }

  /** `sorted(events, key=lambda item: item.seq)` */
  function SortedBySeq(es: seq<Event>): seq<Event> {
    if es == [] then [] else Insert(SortedBySeq(es[..|es| - 1]), es[|es| - 1])
  }

  /** The outcome of a batch. */
  function IngestBatch(l: Ledger, batch: seq<Event>): Result<Ingested, IngestError> {
    IngestFrom(Start(l), SortedBySeq(batch))
  }

  predicate SeqsAscend(es: seq<Event>) {
    forall j, k :: 0 <= j < k < |es| ==> es[j].seqNo <= es[k].seqNo
  }

  lemma {:induction false} InsertMembers(es: seq<Event>, e: Event)
    ensures multiset(Insert(es, e)) == multiset(es) + multiset{e}
    decreases |es|
  {
    if es != [] && es[|es| - 1].seqNo > e.seqNo {
      var n := |es| - 1;
      assert es == es[..n] + [es[n]];
      InsertMembers(es[..n], e);
    }
  }

  lemma AscendSnoc(es: seq<Event>, e: Event)
    requires SeqsAscend(es) && forall x :: x in es ==> x.seqNo <= e.seqNo
    ensures SeqsAscend(es + [e])
  {
  }

  lemma {:induction false} InsertSorts(es: seq<Event>, e: Event)
    requires SeqsAscend(es)
    ensures SeqsAscend(Insert(es, e))
    decreases |es|
  {
    if es == [] || es[|es| - 1].seqNo <= e.seqNo {
      AscendSnoc(es, e);
    } else {
      var n := |es| - 1;
      InsertSorts(es[..n], e);
      InsertMembers(es[..n], e);
      forall x | x in Insert(es[..n], e) ensures x.seqNo <= es[n].seqNo {
        assert x in multiset(Insert(es[..n], e));
        assert x == e || x in multiset(es[..n]);
      }
      AscendSnoc(Insert(es[..n], e), es[n]);
    }
  }

  lemma {:induction false} SortedBySeqSorts(es: seq<Event>)
    ensures SeqsAscend(SortedBySeq(es))
    ensures multiset(SortedBySeq(es)) == multiset(es)
    decreases |es|
  {
    if es != [] {
      var n := |es| - 1;
      SortedBySeqSorts(es[..n]);
      InsertSorts(SortedBySeq(es[..n]), es[n]);
      InsertMembers(SortedBySeq(es[..n]), es[n]);
      assert es == es[..n] + [es[n]];
    }
  }

  // The imperative form.

  /** The columns of a Run row that ingestion may change, and the keys it compares. */
  class RunRow {
    const id: Uuid
    const workspaceId: string
    const machineId: string
    const title: string
    const source: string
    const health: string
    const policy: LivePolicy
    var status: Status
    var attention: Attention
    var progress: Option<Progress>
    var phase: Option<string>
    var message: Option<string>
    var logTail: Option<seq<string>>
    var createdAt: int
    var startedAt: Option<int>
    var updatedAt: int
    var endedAt: Option<int>
    var exitCode: Option<int>
    var reason: Option<string>
    var lastSeq: nat

    function View(): Run
      reads this
    {
      Run(id, workspaceId, machineId, title, source, status, health, attention, progress, phase, message,
          logTail, createdAt, startedAt, updatedAt, endedAt, exitCode, reason, policy, lastSeq)
    }

    constructor (run: Run)
      ensures View() == run
    {
      id, workspaceId, machineId, title, source := run.id, run.workspaceId, run.machineId, run.title, run.source;
      health, policy, status, attention := run.health, run.policy, run.status, run.attention;
      progress, phase, message, logTail := run.progress, run.phase, run.message, run.logTail;
      createdAt, startedAt, updatedAt, endedAt := run.createdAt, run.startedAt, run.updatedAt, run.endedAt;
      exitCode, reason, lastSeq := run.exitCode, run.reason, run.lastSeq;
    }

    /** Puts back the row as it was when the transaction began. */
    method Restore(run: Run)
      requires (run.id, run.workspaceId, run.machineId, run.title, run.source, run.health, run.policy)
            == (id, workspaceId, machineId, title, source, health, policy)
      modifies this
      ensures View() == run
    {
      status, attention, progress, phase, message := run.status, run.attention, run.progress, run.phase, run.message;
      logTail, createdAt, startedAt, updatedAt := run.logTail, run.createdAt, run.startedAt, run.updatedAt;
      endedAt, exitCode, reason, lastSeq := run.endedAt, run.exitCode, run.reason, run.lastSeq;
    }

    /** The assignments of one accepted event. */
    method Absorb(e: Event)
      modifies this
      ensures View() == Apply(old(View()), e)
    {
      AbsorbType(e);
      AbsorbShown(e.payload);
      AbsorbOutcome(e.payload);
    }

    method AbsorbType(e: Event)
      modifies this
      ensures View() == ApplyType(old(View()), e)
    {
      if lastSeq == 0 {
        updatedAt := e.at;
      } else {
        updatedAt := Max(updatedAt, e.at);
      }
      lastSeq := e.seqNo;
      if e.kind == RunCreated {
        createdAt := e.at;
      }
      var next := EventStatus(e.kind);
      if next.Some? {
        status := next.value;
      }
      if (e.kind == RunStarted || e.kind == RunStarting) && startedAt == None {
        startedAt := Some(e.at);
      }
      if next.Some? && IsTerminal(next.value) {
        endedAt := Some(e.at);
      }
    }

    method AbsorbShown(p: Payload)
      modifies this
      ensures View() == ApplyShown(old(View()), p)
    {
      if p.progress.Present? {
        progress := p.progress.value;
      }
      if p.phase.Present? {
        phase := p.phase.value;
      }
      if p.message.Present? {
        message := p.message.value;
      }
      if p.attention.Present? && p.attention.value != None {
        attention := p.attention.value.value;
      }
    }

    method AbsorbOutcome(p: Payload)
      modifies this
      ensures View() == ApplyOutcome(old(View()), p)
    {
      if p.exitCode.Present? {
        exitCode := p.exitCode.value;
      }
      if p.reason.Present? {
        reason := p.reason.value;
      }
      if p.logTail.Present? {
        logTail := p.logTail.value;
      }
    }
  }

  class RunEventTable {
    var rows: seq<Event>

    constructor (rows: seq<Event>)
      ensures this.rows == rows
    {
      this.rows := rows;
    }

    method FindId(id: Uuid) returns (found: Option<Event>)
      requires UniqueIds(rows)
      ensures found.None? ==> !HasId(rows, id)
      ensures found.Some? ==> found.value.id == id && found.value in rows
    {
      for i := 0 to |rows|
        invariant forall j :: 0 <= j < i ==> rows[j].id != id
      {
        if rows[i].id == id {
          return Some(rows[i]);
        }
      }
      return None;
    }

    method FindSeq(runId: Uuid, n: nat) returns (found: bool)
      ensures found == HasSeq(rows, runId, n)
    {
      for i := 0 to |rows|
        invariant forall j :: 0 <= j < i ==> !(rows[j].runId == runId && rows[j].seqNo == n)
      {
        if rows[i].runId == runId && rows[i].seqNo == n {
          return true;
        }
      }
      return false;
    }
  }

  datatype Receipt = Receipt(inserted: seq<Uuid>, duplicates: seq<Uuid>, lastSeq: nat, pushes: seq<PushCall>)

  method IngestEvents(run: RunRow, table: RunEventTable, batch: seq<Event>) returns (r: Result<Receipt, IngestError>)
    requires UniqueIds(table.rows)
    modifies run, table
    ensures match IngestBatch(Ledger(old(run.View()), old(table.rows)), batch)
            case Ok(done) =>
              && r == Ok(Receipt(done.inserted, done.duplicates, run.lastSeq, done.pushes))
              && run.View() == done.ledger.run && table.rows == done.ledger.events && UniqueIds(table.rows)
            case Err(error) => r == Err(error)
  {
    ghost var start := Start(Ledger(run.View(), table.rows));
    var inserted: seq<Uuid>, duplicates: seq<Uuid>, pushes: seq<PushCall> := [], [], [];
    var ordered := SortedBySeq(batch);
    assert ordered[0..] == ordered;
    for i := 0 to |ordered|
      invariant UniqueIds(table.rows)
      invariant IngestFrom(start, ordered) ==
                IngestFrom(Ingested(Ledger(run.View(), table.rows), inserted, duplicates, pushes), ordered[i..])
    {
      var event := ordered[i];
      ghost var acc := Ingested(Ledger(run.View(), table.rows), inserted, duplicates, pushes);
      assert ordered[i..][0] == event && ordered[i..][1..] == ordered[i + 1..];
      assert IngestFrom(acc, ordered[i..]) == match IngestOne(acc, event)
        case Ok(next) => IngestFrom(next, ordered[i + 1..])
        case Err(error) => Err(error);
      var existing := table.FindId(event.id);
      if existing.Some? {
        UniqueIdIsKnown(table.rows, existing.value, run.id, event);
        if existing.value.runId == run.id && existing.value.seqNo == event.seqNo && existing.value.kind == event.kind {
          duplicates := duplicates + [event.id];
          continue;
        }
        return Err(ReplayMismatch);
      }
      var taken := table.FindSeq(run.id, event.seqNo);
      if taken {
        return Err(SeqTaken);
      }
      if event.seqNo <= run.lastSeq {
        return Err(OutOfOrder);
      }
      if event.runId != run.id || event.machineId != run.machineId {
        return Err(OwnershipMismatch);
      }
      var refusal := Transition(run.View(), event);
      if refusal.Some? {
        return Err(refusal.value);
      }
      var previousProgress := run.progress;
      table.rows := table.rows + [event];
      run.Absorb(event);
      pushes := pushes + [PushCall(event.kind, run.View(), previousProgress)];
      inserted := inserted + [event.id];
    }
    assert ordered[|ordered|..] == [];
    return Ok(Receipt(inserted, duplicates, run.lastSeq, pushes));
  }

  /** The request handler: a failing batch is rolled back. */
  method IngestRunEvents(run: RunRow, table: RunEventTable, batch: seq<Event>) returns (r: Result<Receipt, IngestError>)
    requires UniqueIds(table.rows)
    modifies run, table
    ensures UniqueIds(table.rows)
    ensures match IngestBatch(Ledger(old(run.View()), old(table.rows)), batch)
            case Ok(done) =>
              && r == Ok(Receipt(done.inserted, done.duplicates, run.lastSeq, done.pushes))
              && run.View() == done.ledger.run && table.rows == done.ledger.events
            case Err(error) =>
              r == Err(error) && run.View() == old(run.View()) && table.rows == old(table.rows)
  {
    var before, rows := run.View(), table.rows;
    r := IngestEvents(run, table, batch);
    if r.Err? {
      run.Restore(before);
      table.rows := rows;
    }
  }

  lemma UniqueIdIsKnown(rows: seq<Event>, row: Event, runId: Uuid, e: Event)
    requires UniqueIds(rows) && row in rows && row.id == e.id
    ensures HasId(rows, e.id)
    ensures Known(rows, runId, e) <==> row.runId == runId && row.seqNo == e.seqNo && row.kind == e.kind
  {
    var i :| 0 <= i < |rows| && rows[i] == row;
    if Known(rows, runId, e) {
      var j :| 0 <= j < |rows| && rows[j].id == e.id && rows[j].runId == runId
               && rows[j].seqNo == e.seqNo && rows[j].kind == e.kind;
      assert i == j;
    }
  }
}
