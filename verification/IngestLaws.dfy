/**
 Laws of batch ingestion: the order inside a batch does not matter, replays change
 nothing, accepted events can be left out or sent again, and a batch can be split.
 */
module IngestLaws {
  import opened Wrappers
  import opened Events
  import opened Ingest
  import opened Sequences

  function Ids(es: seq<Event>): seq<Uuid> {
    seq(|es|, i requires 0 <= i < |es| => es[i].id)
  }

  // Sequencing.

  lemma {:induction false} IngestConcat(acc: Ingested, a: seq<Event>, b: seq<Event>)
    ensures IngestFrom(acc, a + b) == match IngestFrom(acc, a)
              case Ok(next) => IngestFrom(next, b)
              case Err(error) => Err(error)
    decreases |a|
  {
    if a == [] {
      assert a + b == b;
    } else {
      assert (a + b)[1..] == a[1..] + b;
      if IngestOne(acc, a[0]).Ok? {
        IngestConcat(IngestOne(acc, a[0]).value, a[1..], b);
      }
    }
  }

  /** Joins the outcomes of two requests, the second made on what the first left. */
  function Joined(first: Ingested, second: Ingested): Ingested {
    Ingested(second.ledger, first.inserted + second.inserted, first.duplicates + second.duplicates,
             first.pushes + second.pushes)
  }

  lemma {:induction false} IngestShift(acc: Ingested, es: seq<Event>)
    ensures IngestFrom(acc, es) == match IngestFrom(Start(acc.ledger), es)
              case Ok(done) => Ok(Joined(acc, done))
              case Err(error) => Err(error)
    decreases |es|
  {
    if es == [] {
      assert Joined(acc, Start(acc.ledger)) == acc;
    } else if IngestOne(acc, es[0]).Ok? {
      var next, fresh0 := IngestOne(acc, es[0]).value, IngestOne(Start(acc.ledger), es[0]).value;
      IngestShift(next, es[1..]);
      IngestShift(fresh0, es[1..]);
      var rest := IngestFrom(Start(next.ledger), es[1..]);
      if rest.Ok? {
        JoinedAssociates(acc, fresh0, rest.value);
        assert next == Joined(acc, fresh0);
      }
    }
  }

  lemma JoinedAssociates(a: Ingested, b: Ingested, c: Ingested)
    ensures Joined(Joined(a, b), c) == Joined(a, Joined(b, c))
  {
  }

  // Sorting.

  predicate UniqueSeqs(es: seq<Event>) {
    forall j, k :: 0 <= j < k < |es| ==> es[j].seqNo != es[k].seqNo
  }

  lemma {:induction false} SortedIsUnique(a: seq<Event>, b: seq<Event>)
    requires SeqsIncrease(a) && SeqsIncrease(b) && multiset(a) == multiset(b)
    ensures a == b
    decreases |a|
  {
    assert |multiset(a)| == |a| && |multiset(b)| == |b|;
    if a != [] {
      SameFirst(a, b);
      HeadAndTail(a);
      HeadAndTail(b);
      SortedIsUnique(a[1..], b[1..]);
    }
  }

  lemma {:induction false} SameFirst(a: seq<Event>, b: seq<Event>)
    requires SeqsIncrease(a) && SeqsIncrease(b) && multiset(a) == multiset(b) && a != [] && b != []
    ensures a[0] == b[0]
  {
    assert a[0] in multiset(b) && b[0] in multiset(a);
    var j :| 0 <= j < |b| && b[j] == a[0];
    var k :| 0 <= k < |a| && a[k] == b[0];
  }

  lemma HeadAndTail(a: seq<Event>)
    requires a != []
    ensures multiset(a[1..]) == multiset(a) - multiset{a[0]}
  {
    assert a == [a[0]] + a[1..];
  }

  lemma {:induction false} UniqueSeqsPermute(a: seq<Event>, b: seq<Event>)
    requires UniqueSeqs(a) && multiset(a) == multiset(b)
    ensures UniqueSeqs(b)
  {
    forall j, k | 0 <= j < k < |b| ensures b[j].seqNo != b[k].seqNo {
      assert b == b[..j] + [b[j]] + b[j + 1..k] + [b[k]] + b[k + 1..];
      assert multiset(a)[b[j]] >= 1 && multiset(a)[b[k]] >= 1;
      if b[j] == b[k] {
        assert multiset(a)[b[j]] >= 2;
        TwiceIn(a, b[j]);
      } else {
        assert b[j] in a && b[k] in a;
      }
    }
  }

  lemma {:induction false} TwiceIn(a: seq<Event>, e: Event)
    requires multiset(a)[e] >= 2
    ensures exists j, k :: 0 <= j < k < |a| && a[j] == e && a[k] == e
  {
    assert e in a;
    var j :| 0 <= j < |a| && a[j] == e;
    assert a == a[..j] + [a[j]] + a[j + 1..];
    assert multiset(a) == multiset(a[..j]) + multiset{e} + multiset(a[j + 1..]);
    if e in a[..j] {
      var i :| 0 <= i < j && a[..j][i] == e;
      assert a[i] == e;
    } else {
      assert e in a[j + 1..];
      var i :| 0 <= i < |a| - j - 1 && a[j + 1..][i] == e;
      assert a[j + 1 + i] == e;
    }
  }

  /** The outcome of a batch does not depend on the order of the events in it. */
  lemma {:induction false} OrderWithinBatch(l: Ledger, a: seq<Event>, b: seq<Event>)
    requires UniqueSeqs(a) && multiset(a) == multiset(b)
    ensures IngestBatch(l, a) == IngestBatch(l, b)
  {
    SortedBySeqSorts(a);
    SortedBySeqSorts(b);
    UniqueSeqsPermute(a, SortedBySeq(a));
    UniqueSeqsPermute(a, SortedBySeq(b));
    SortedIsUnique(SortedBySeq(a), SortedBySeq(b));
  }

  predicate AtMost(es: seq<Event>, n: nat) {
    forall x :: x in es ==> x.seqNo <= n
  }

  lemma {:induction false} InsertAfter(low: seq<Event>, es: seq<Event>, e: Event)
    requires AtMost(low, e.seqNo)
    ensures Insert(low + es, e) == low + Insert(es, e)
    decreases |es|
  {
    if es == [] {
      assert low + es == low && low + [e] == low + ([] + [e]);
    } else {
      var n := |es| - 1;
      assert (low + es)[..|low| + n] == low + es[..n];
      if es[n].seqNo > e.seqNo {
        InsertAfter(low, es[..n], e);
      }
    }
  }

  predicate Below(a: seq<Event>, b: seq<Event>) {
    forall j :: 0 <= j < |b| ==> AtMost(a, b[j].seqNo)
  }

  lemma {:induction false} SortedAtMost(es: seq<Event>, n: nat)
    requires AtMost(es, n)
    ensures AtMost(SortedBySeq(es), n)
  {
    SortedBySeqSorts(es);
    forall x | x in SortedBySeq(es) ensures x.seqNo <= n {
      assert x in multiset(SortedBySeq(es));
      assert x in es;
    }
  }

  lemma {:induction false} SortedSnoc(es: seq<Event>, e: Event)
    ensures SortedBySeq(es + [e]) == Insert(SortedBySeq(es), e)
  {
    assert (es + [e])[..|es|] == es;
  }

  lemma {:induction false} InsertSnoc(es: seq<Event>, last: Event, e: Event)
    requires last.seqNo > e.seqNo
    ensures Insert(es + [last], e) == Insert(es, e) + [last]
  {
    assert (es + [last])[..|es|] == es;
  }

  lemma {:induction false} SortConcatStep(a: seq<Event>, b: seq<Event>, e: Event)
    requires AtMost(a, e.seqNo) && SortedBySeq(a + b) == SortedBySeq(a) + SortedBySeq(b)
    ensures SortedBySeq(a + (b + [e])) == SortedBySeq(a) + SortedBySeq(b + [e])
  {
    SortedAtMost(a, e.seqNo);
    InsertAfter(SortedBySeq(a), SortedBySeq(b), e);
    SortedSnoc(b, e);
    SortedSnoc(a + b, e);
    ConcatAssociates(a, b, [e]);
  }

  lemma {:induction false} SortConcat(a: seq<Event>, b: seq<Event>)
    requires Below(a, b)
    ensures SortedBySeq(a + b) == SortedBySeq(a) + SortedBySeq(b)
    decreases |b|
  {
    if b == [] {
      assert a + b == a;
    } else {
      var n := |b| - 1;
      InitAndLast(b);
      SortConcat(a, b[..n]);
      SortConcatStep(a, b[..n], b[n]);
    }
  }

  /** One batch has the outcome of the two batches it splits into by seq. */
  lemma {:induction false} SplitBatch(l: Ledger, low: seq<Event>, high: seq<Event>)
    requires Below(low, high)
    ensures IngestBatch(l, low + high) == match IngestBatch(l, low)
              case Err(error) => Err(error)
              case Ok(first) => match IngestBatch(first.ledger, high)
                case Err(error) => Err(error)
                case Ok(second) => Ok(Joined(first, second))
  {
    SortConcat(low, high);
    IngestConcat(Start(l), SortedBySeq(low), SortedBySeq(high));
    if IngestBatch(l, low).Ok? {
      IngestShift(IngestBatch(l, low).value, SortedBySeq(high));
    }
  }

  // Replays.

  lemma {:induction false} KnownStays(more: seq<Event>, events: seq<Event>, runId: Uuid, e: Event)
    requires Known(events, runId, e) && events <= more
    ensures Known(more, runId, e) && HasId(more, e.id)
  {
    var i :| 0 <= i < |events| && events[i].id == e.id && events[i].runId == runId
             && events[i].seqNo == e.seqNo && events[i].kind == e.kind;
    assert more[i] == events[i];
  }

  /** Ingestion only adds rows, and afterwards every event of the batch is known. */
  lemma {:induction false} IngestRemembers(acc: Ingested, es: seq<Event>)
    requires IngestFrom(acc, es).Ok?
    ensures var done := IngestFrom(acc, es).value;
            && acc.ledger.events <= done.ledger.events
            && done.ledger.run.id == acc.ledger.run.id
            && done.ledger.run.machineId == acc.ledger.run.machineId
            && forall e :: e in es ==> Known(done.ledger.events, acc.ledger.run.id, e)
    decreases |es|
  {
    if es != [] {
      var next, runId, e := IngestOne(acc, es[0]).value, acc.ledger.run.id, es[0];
      if Judge(acc.ledger, e).Accept? {
        assert next.ledger.events[|acc.ledger.events|] == e;
      }
      assert Known(next.ledger.events, runId, e);
      IngestRemembers(next, es[1..]);
      var done := IngestFrom(next, es[1..]).value;
      KnownStays(done.ledger.events, next.ledger.events, runId, e);
      forall x | x in es ensures Known(done.ledger.events, runId, x) {
        if x != e { assert x in es[1..]; }
      }
    }
  }

  lemma {:induction false} KnownAreDuplicates(acc: Ingested, es: seq<Event>)
    requires forall e :: e in es ==> Known(acc.ledger.events, acc.ledger.run.id, e)
    ensures IngestFrom(acc, es) == Ok(acc.(duplicates := acc.duplicates + Ids(es)))
    decreases |es|
  {
    if es == [] {
      assert acc.duplicates + Ids(es) == acc.duplicates;
    } else {
      assert es[0] in es;
      KnownStays(acc.ledger.events, acc.ledger.events, acc.ledger.run.id, es[0]);
      forall e | e in es[1..] ensures Known(acc.ledger.events, acc.ledger.run.id, e) { assert e in es; }
      KnownAreDuplicates(acc.(duplicates := acc.duplicates + [es[0].id]), es[1..]);
      assert Ids(es) == [es[0].id] + Ids(es[1..]);
      assert acc.duplicates + Ids(es) == acc.duplicates + [es[0].id] + Ids(es[1..]);
    }
  }

  /**
   Sending accepted events again, in any order and in any selection, changes nothing
   and reports duplicates only; whether the run has ended does not matter.
   */
  lemma {:induction false} ReplayChangesNothing(l: Ledger, batch: seq<Event>, again: seq<Event>)
    requires IngestBatch(l, batch).Ok? && forall e :: e in again ==> e in batch
    ensures var l' := IngestBatch(l, batch).value.ledger;
            IngestBatch(l', again) == Ok(Ingested(l', [], Ids(SortedBySeq(again)), []))
  {
    var sorted, l' := SortedBySeq(batch), IngestBatch(l, batch).value.ledger;
    SortedBySeqSorts(batch);
    SortedBySeqSorts(again);
    IngestRemembers(Start(l), sorted);
    forall e | e in SortedBySeq(again) ensures Known(l'.events, l'.run.id, e) {
      assert e in multiset(SortedBySeq(again));
      assert e in batch;
      assert e in multiset(sorted);
    }
    KnownAreDuplicates(Start(l'), SortedBySeq(again));
    assert [] + Ids(SortedBySeq(again)) == Ids(SortedBySeq(again));
  }

  // Continuations.

  /** Equal but for the list of duplicates. */
  predicate SameEffect(a: Result<Ingested, IngestError>, b: Result<Ingested, IngestError>) {
    if a.Ok? && b.Ok? then a.value.(duplicates := []) == b.value.(duplicates := [])
    else a == b
  }

  /** The events of a batch that a table does not know. */
  function Unknown(events: seq<Event>, runId: Uuid, es: seq<Event>): seq<Event> {
    if es == [] then []
    else (if Known(events, runId, es[0]) then [] else [es[0]]) + Unknown(events, runId, es[1..])
  }

  lemma {:induction false} KnownCanBeLeftOut(events: seq<Event>, a: Ingested, b: Ingested, es: seq<Event>)
    requires SameEffect(Ok(a), Ok(b)) && events <= a.ledger.events
    ensures SameEffect(IngestFrom(a, es), IngestFrom(b, Unknown(events, a.ledger.run.id, es)))
    decreases |es|
  {
    if es != [] {
      var e, runId := es[0], a.ledger.run.id;
      var rest := Unknown(events, runId, es[1..]);
      if Known(events, runId, e) {
        KnownStays(a.ledger.events, events, runId, e);
        assert [] + rest == rest;
        KnownCanBeLeftOut(events, a.(duplicates := a.duplicates + [e.id]), b, es[1..]);
      } else {
        assert ([e] + rest)[1..] == rest;
        if IngestOne(a, e).Ok? {
          KnownCanBeLeftOut(events, IngestOne(a, e).value, IngestOne(b, e).value, es[1..]);
        }
      }
    }
  }

  lemma {:induction false} UnknownConcat(events: seq<Event>, runId: Uuid, a: seq<Event>, b: seq<Event>)
    ensures Unknown(events, runId, a + b) == Unknown(events, runId, a) + Unknown(events, runId, b)
    decreases |a|
  {
    if a == [] {
      assert a + b == b;
    } else {
      assert (a + b)[1..] == a[1..] + b;
      UnknownConcat(events, runId, a[1..], b);
    }
  }

  lemma {:induction false} UnknownSnoc(events: seq<Event>, runId: Uuid, es: seq<Event>, e: Event)
    ensures Unknown(events, runId, es + [e]) ==
            if Known(events, runId, e) then Unknown(events, runId, es) else Unknown(events, runId, es) + [e]
  {
    UnknownConcat(events, runId, es, [e]);
    assert Unknown(events, runId, es) + [] == Unknown(events, runId, es);
  }

  lemma {:induction false} UnknownInsert(events: seq<Event>, runId: Uuid, es: seq<Event>, e: Event)
    requires SeqsAscend(es)
    ensures Unknown(events, runId, Insert(es, e)) ==
            if Known(events, runId, e) then Unknown(events, runId, es) else Insert(Unknown(events, runId, es), e)
    decreases |es|
  {
    if es == [] || es[|es| - 1].seqNo <= e.seqNo {
      UnknownSnoc(events, runId, es, e);
      UnknownIn(events, runId, es);
      var u := Unknown(events, runId, es);
      assert u != [] ==> u[|u| - 1] in es;
    } else {
      var n := |es| - 1;
      InitAndLast(es);
      UnknownInsert(events, runId, es[..n], e);
      UnknownSnoc(events, runId, Insert(es[..n], e), es[n]);
      UnknownSnoc(events, runId, es[..n], es[n]);
      InsertSnoc(Unknown(events, runId, es[..n]), es[n], e);
    }
  }

  lemma {:induction false} UnknownIn(events: seq<Event>, runId: Uuid, es: seq<Event>)
    ensures forall e :: e in Unknown(events, runId, es) ==> e in es
    decreases |es|
  {
    if es != [] {
      UnknownIn(events, runId, es[1..]);
    }
  }

  lemma {:induction false} UnknownSorts(events: seq<Event>, runId: Uuid, es: seq<Event>)
    ensures Unknown(events, runId, SortedBySeq(es)) == SortedBySeq(Unknown(events, runId, es))
    decreases |es|
  {
    if es != [] {
      var n := |es| - 1;
      InitAndLast(es);
      UnknownSorts(events, runId, es[..n]);
      SortedBySeqSorts(es[..n]);
      UnknownInsert(events, runId, SortedBySeq(es[..n]), es[n]);
      UnknownSnoc(events, runId, es[..n], es[n]);
      SortedSnoc(Unknown(events, runId, es[..n]), es[n]);
    }
  }

  /**
   A batch that repeats accepted events, in front of or between new ones, has the
   effect of the new ones alone.
   */
  lemma {:induction false} ContinuationAfterReplay(l: Ledger, first: seq<Event>, more: seq<Event>)
    requires IngestBatch(l, first).Ok?
    ensures var l' := IngestBatch(l, first).value.ledger;
            SameEffect(IngestBatch(l', first + more), IngestBatch(l', more))
  {
    var l' := IngestBatch(l, first).value.ledger;
    var runId, events := l'.run.id, l'.events;
    SortedBySeqSorts(first);
    IngestRemembers(Start(l), SortedBySeq(first));
    forall e | e in first ensures Known(events, runId, e) { assert e in multiset(SortedBySeq(first)); }
    NothingUnknown(events, runId, first);
    UnknownConcat(events, runId, first, more);
    assert Unknown(events, runId, first + more) == Unknown(events, runId, more);
    UnknownSorts(events, runId, first + more);
    UnknownSorts(events, runId, more);
    KnownCanBeLeftOut(events, Start(l'), Start(l'), SortedBySeq(first + more));
    KnownCanBeLeftOut(events, Start(l'), Start(l'), SortedBySeq(more));
  }

  lemma {:induction false} NothingUnknown(events: seq<Event>, runId: Uuid, es: seq<Event>)
    requires forall e :: e in es ==> Known(events, runId, e)
    ensures Unknown(events, runId, es) == []
    decreases |es|
  {
    if es != [] {
      assert es[0] in es;
      forall e | e in es[1..] ensures Known(events, runId, e) { assert e in es; }
      NothingUnknown(events, runId, es[1..]);
    }
  }
}
