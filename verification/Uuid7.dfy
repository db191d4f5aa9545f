/**
 Monotonic UUIDv7 generation (server/app/security.py, uuid7), against sections 5.7
 and 6.2 of RFC 9562.  The clock and the random draws are inputs; a UUID is its
 128-bit number.
 */
module Uuid7 {
  import opened Arithmetic

  const TWO_48: int := 0x1_0000_0000_0000
  const TWO_62: int := 0x4000_0000_0000_0000
  const TWO_64: int := 0x1_0000_0000_0000_0000
  const TWO_74: int := 0x400_0000_0000_0000_0000
  const TWO_76: int := 0x1000_0000_0000_0000_0000
  const TWO_80: int := 0x1_0000_0000_0000_0000_0000
  const TWO_128: int := 0x1_0000_0000_0000_0000_0000_0000_0000_0000

  /** A draw of 74 random bits. */
  type Draw = n: int | 0 <= n < TWO_74

  /** The timestamp and the counter of the last UUID; (-1, -1) before the first. */
  datatype Stamp = Stamp(ms: int, counter: int)

  predicate Sound(last: Stamp) {
    -1 <= last.counter < TWO_74 && last.ms >= -1
  }

  predicate Before(a: Stamp, b: Stamp) {
    a.ms < b.ms || (a.ms == b.ms && a.counter < b.counter)
  }

  /** The clock reading that counts: time never runs backwards. */
  function Reading(last: Stamp, clock: int): int {
    if clock >= last.ms then clock else last.ms
  }

  function Advance(last: Stamp, clock: int, draw: Draw): (next: Stamp)
    requires Sound(last)
    ensures Sound(next) && 0 <= next.counter && Before(last, next)
  {
    var ms := Reading(last, clock);
    if ms > last.ms then Stamp(ms, draw)
    else if last.counter + 1 < TWO_74 then Stamp(ms, last.counter + 1)
    else Stamp(ms + 1, draw)
  }

  /** The fields of a UUIDv7: 48 bits of time, version, 12 bits, variant, 62 bits. */
  function Encode(ms: int, counter: int): int
    requires 0 <= counter < TWO_74
  {
    (ms % TWO_48) * TWO_80 + 7 * TWO_76 + (counter / TWO_62) * TWO_64 + 2 * TWO_62 + counter % TWO_62
  }

  function Timestamp(uuid: int): int { uuid / TWO_80 }

  function Version(uuid: int): int { uuid / TWO_76 % 16 }

  function Variant(uuid: int): int { uuid / TWO_62 % 4 }

  function Counter(uuid: int): int { uuid / TWO_64 % 0x1000 * TWO_62 + uuid % TWO_62 }

  class Generator {
    var lastMs: int
    var lastRandom: int

    function State(): Stamp
      reads this
    {
      Stamp(lastMs, lastRandom)
    }

    constructor ()
      ensures State() == Stamp(-1, -1) && Sound(State())
    {
      lastMs := -1;
      lastRandom := -1;
    }

    method Generate(clock: int, draw: Draw) returns (uuid: int)
      requires Sound(State())
      modifies this
      ensures State() == Advance(old(State()), clock, draw)
      ensures Sound(State()) && 0 <= lastRandom
      ensures uuid == Encode(lastMs, lastRandom)
    {
      var timestampMs := if clock >= lastMs then clock else lastMs;
      var randomValue: int;
      if timestampMs == lastMs {
        randomValue := lastRandom + 1;
        if randomValue >= TWO_74 {
          timestampMs := timestampMs + 1;
          randomValue := draw;
        }
      } else {
        randomValue := draw;
      }
      lastMs := timestampMs;
      lastRandom := randomValue;
      var randomA := randomValue / TWO_62;
      var randomB := randomValue % TWO_62;
      uuid := (timestampMs % TWO_48) * TWO_80;
      uuid := uuid + 7 * TWO_76;
      uuid := uuid + randomA * TWO_64;
      uuid := uuid + 2 * TWO_62;
      uuid := uuid + randomB;
    }
  }

  /** Every field decodes back, and the number has 128 bits. */
  lemma {:induction false} FieldsDecode(ms: int, counter: int)
    requires 0 <= counter < TWO_74
    ensures var uuid := Encode(ms, counter);
            && 0 <= uuid < TWO_128
            && Timestamp(uuid) == ms % TWO_48
            && Version(uuid) == 7
            && Variant(uuid) == 2
            && Counter(uuid) == counter
  {
    var t, a, b := ms % TWO_48, counter / TWO_62, counter % TWO_62;
    assert 0 <= t < TWO_48 && 0 <= a < 0x1000 && 0 <= b < TWO_62;
    var versioned := t * 16 + 7;
    var high := versioned * 0x1000 + a;
    QuotientAndRest(high * 4 + 2, b, TWO_62);
    QuotientAndRest(high, 2, 4);
    QuotientAndRest(high, 2 * TWO_62 + b, TWO_64);
    QuotientAndRest(versioned, a, 0x1000);
    QuotientAndRest(versioned, a * TWO_64 + 2 * TWO_62 + b, TWO_76);
    QuotientAndRest(t, 7, 16);
    QuotientAndRest(t, 7 * TWO_76 + a * TWO_64 + 2 * TWO_62 + b, TWO_80);
  }

  /** Two numbers with the fields (time, 12 bits, 62 bits) compare field by field. */
  lemma FieldOrder(t: int, a: int, b: int, t': int, a': int, b': int)
    requires 0 <= a < 0x1000 && 0 <= b < TWO_62 && 0 <= a' < 0x1000 && 0 <= b' < TWO_62
    ensures t * TWO_80 + 7 * TWO_76 + a * TWO_64 + 2 * TWO_62 + b <
            t' * TWO_80 + 7 * TWO_76 + a' * TWO_64 + 2 * TWO_62 + b' <==>
            t < t' || (t == t' && (a < a' || (a == a' && b < b')))
  {
  }

  /** The order of the numbers is the order of (48-bit timestamp, counter). */
  lemma EncodeOrder(x: Stamp, y: Stamp)
    requires 0 <= x.counter < TWO_74 && 0 <= y.counter < TWO_74
    ensures Encode(x.ms, x.counter) < Encode(y.ms, y.counter) <==>
            Before(Stamp(x.ms % TWO_48, x.counter), Stamp(y.ms % TWO_48, y.counter))
  {
    var a, b := x.counter / TWO_62, x.counter % TWO_62;
    var a', b' := y.counter / TWO_62, y.counter % TWO_62;
    assert 0 <= a < 0x1000 && 0 <= a' < 0x1000;
    FieldOrder(x.ms % TWO_48, a, b, y.ms % TWO_48, a', b');
  }

  /** One call of the generator: what the clock shows and what would be drawn. */
  datatype Call = Call(clock: int, draw: Draw)

  function StateAfter(last: Stamp, calls: seq<Call>): (next: Stamp)
    requires Sound(last)
    ensures Sound(next) && (calls != [] ==> 0 <= next.counter && Before(last, next))
    decreases |calls|
  {
    if calls == [] then last
    else
      var n := |calls| - 1;
      Advance(StateAfter(last, calls[..n]), calls[n].clock, calls[n].draw)
  }

  /** The UUID of the k-th call. */
  function Output(last: Stamp, calls: seq<Call>, k: nat): int
    requires Sound(last) && k < |calls|
  {
    var next := StateAfter(last, calls[..k + 1]);
    Encode(next.ms, next.counter)
  }

  lemma {:induction false} StatesRise(last: Stamp, calls: seq<Call>, j: nat, k: nat)
    requires Sound(last) && j < k <= |calls|
    ensures Before(StateAfter(last, calls[..j]), StateAfter(last, calls[..k]))
    decreases k
  {
    assert calls[..k][..k - 1] == calls[..k - 1];
    if j < k - 1 {
      StatesRise(last, calls, j, k - 1);
    }
  }

  /**
   Over any sequence of calls, whatever the clock shows and whatever is drawn, the
   UUIDs strictly increase as long as the timestamps have the same bits above bit 47.
   */
  lemma {:induction false} OutputsRise(last: Stamp, calls: seq<Call>, j: nat, k: nat)
    requires Sound(last) && j < k < |calls|
    requires StateAfter(last, calls[..j + 1]).ms / TWO_48 == StateAfter(last, calls[..k + 1]).ms / TWO_48
    ensures Output(last, calls, j) < Output(last, calls, k)
  {
    StatesRise(last, calls, j + 1, k + 1);
    LaterIsGreater(StateAfter(last, calls[..j + 1]), StateAfter(last, calls[..k + 1]));
  }

  lemma LaterIsGreater(x: Stamp, y: Stamp)
    requires 0 <= x.counter < TWO_74 && 0 <= y.counter < TWO_74 && Before(x, y)
    requires x.ms / TWO_48 == y.ms / TWO_48
    ensures Encode(x.ms, x.counter) < Encode(y.ms, y.counter)
  {
    SamePeriod(x.ms, y.ms);
    EncodeOrder(x, y);
  }

  lemma SamePeriod(x: int, y: int)
    requires x / TWO_48 == y / TWO_48
    ensures x % TWO_48 < y % TWO_48 <==> x < y
    ensures x % TWO_48 == y % TWO_48 <==> x == y
  {
  }

  const FRESH := Stamp(-1, -1)

  /** Up to the j-th call the clock has shown no time from 1970 on, and the counter has not run over. */
  predicate EarlyThrough(calls: seq<Call>, j: nat)
    requires j < |calls|
  {
    j < TWO_74 && forall i :: 0 <= i <= j ==> calls[i].clock < 0
  }

  /** That is when the timestamp is still the one that a process starts with; the counter then counts calls. */
  lemma {:induction false} EarlyState(calls: seq<Call>, j: nat)
    requires j < |calls|
    ensures var state := StateAfter(FRESH, calls[..j + 1]);
            && (state.ms == -1 <==> EarlyThrough(calls, j))
            && (state.ms == -1 ==> state.counter == j)
  {
    assert calls[..j + 1][..j] == calls[..j];
    if j > 0 {
      EarlyState(calls, j - 1);
      assert EarlyThrough(calls, j) <==> j < TWO_74 && EarlyThrough(calls, j - 1) && calls[j].clock < 0;
    }
  }

  /**
   When two UUIDs of a process are in order, for any clock and any draws, as long as
   timestamps stay below 2^48: not if the first was made before 1970 by the clock and the
   second was not, unless the second has reached the largest timestamp as well.
   */
  lemma {:induction false} OutputsInOrder(calls: seq<Call>, j: nat, k: nat)
    requires j < k < |calls|
    requires StateAfter(FRESH, calls[..k + 1]).ms < TWO_48
    ensures var last := StateAfter(FRESH, calls[..k + 1]);
            Output(FRESH, calls, j) < Output(FRESH, calls, k) <==>
            (EarlyThrough(calls, j) ==> EarlyThrough(calls, k) || (last.ms == TWO_48 - 1 && j < last.counter))
  {
    var x, y := StateAfter(FRESH, calls[..j + 1]), StateAfter(FRESH, calls[..k + 1]);
    StatesRise(FRESH, calls, j + 1, k + 1);
    EarlyState(calls, j);
    EarlyState(calls, k);
    EncodeOrder(x, y);
    Remainders(x.ms);
    Remainders(y.ms);
  }

  lemma Remainders(ms: int)
    requires -1 <= ms < TWO_48
    ensures ms % TWO_48 == if ms == -1 then TWO_48 - 1 else ms
  {
  }

  /** So they increase in every process whose first call is made after 1970, whatever the clock does later. */
  lemma {:induction false} FreshOutputsRise(calls: seq<Call>, j: nat, k: nat)
    requires j < k < |calls| && calls[0].clock >= 0
    requires StateAfter(FRESH, calls[..k + 1]).ms < TWO_48
    ensures Output(FRESH, calls, j) < Output(FRESH, calls, k)
  {
    OutputsInOrder(calls, j, k);
  }

  function CounterAfter(calls: seq<Call>, j: nat): int
    requires j < |calls|
  {
    StateAfter(FRESH, calls[..j + 1]).counter
  }

  /** The counter of 74 bits never ran over before the k-th call. */
  predicate NeverRunsOver(calls: seq<Call>, k: nat)
    requires k < |calls|
  {
    forall j :: 0 <= j < k ==> CounterAfter(calls, j) + 1 < TWO_74
  }

  lemma {:induction false} HighestReading(calls: seq<Call>, k: nat)
    requires k < |calls| && NeverRunsOver(calls, k)
    ensures var ms := StateAfter(FRESH, calls[..k + 1]).ms;
            (forall j :: 0 <= j <= k ==> calls[j].clock <= ms) && (ms == -1 || exists j :: 0 <= j <= k && calls[j].clock == ms)
  {
    assert calls[..k + 1][..k] == calls[..k];
    if k > 0 {
      HighestReading(calls, k - 1);
      var before := StateAfter(FRESH, calls[..k]);
      assert CounterAfter(calls, k - 1) == before.counter;
      if before.ms != -1 {
        var j :| 0 <= j <= k - 1 && calls[j].clock == before.ms;
      }
    }
  }

  lemma {:induction false} OutputFields(calls: seq<Call>, k: nat)
    requires k < |calls|
    ensures var state := StateAfter(FRESH, calls[..k + 1]);
            Timestamp(Output(FRESH, calls, k)) == state.ms % TWO_48 && Counter(Output(FRESH, calls, k)) == state.counter
  {
    var state := StateAfter(FRESH, calls[..k + 1]);
    FieldsDecode(state.ms, state.counter);
  }

  lemma {:induction false} CounterFollows(calls: seq<Call>, k: nat)
    requires k < |calls| && NeverRunsOver(calls, k) && forall j :: 0 <= j <= k ==> 0 <= calls[j].clock
    ensures var state := StateAfter(FRESH, calls[..k + 1]);
            state.counter == if forall j :: 0 <= j < k ==> calls[j].clock < calls[k].clock then calls[k].draw
                             else CounterAfter(calls, k - 1) + 1
  {
    assert calls[..k + 1][..k] == calls[..k];
    if k > 0 {
      HighestReading(calls, k - 1);
      var before := StateAfter(FRESH, calls[..k]);
      assert CounterAfter(calls, k - 1) == before.counter;
      assert calls[0].clock <= before.ms;
      var j :| 0 <= j <= k - 1 && calls[j].clock == before.ms;
    }
  }

  /**
   The timestamp of a number is the highest reading of the clock so far, and the counter is
   drawn anew when that is the present one and higher than all before, and else one more
   than before.
   */
  lemma {:induction false} TimestampIsHighest(calls: seq<Call>, k: nat)
    requires k < |calls| && NeverRunsOver(calls, k) && forall j :: 0 <= j <= k ==> 0 <= calls[j].clock < TWO_48
    ensures var uuid := Output(FRESH, calls, k);
            && (forall j :: 0 <= j <= k ==> calls[j].clock <= Timestamp(uuid))
            && (exists j :: 0 <= j <= k && calls[j].clock == Timestamp(uuid))
            && Counter(uuid) == if forall j :: 0 <= j < k ==> calls[j].clock < calls[k].clock then calls[k].draw
                                else Counter(Output(FRESH, calls, k - 1)) + 1
  {
    HighestReading(calls, k);
    CounterFollows(calls, k);
    OutputFields(calls, k);
    if k > 0 { OutputFields(calls, k - 1); }
    var state := StateAfter(FRESH, calls[..k + 1]);
    assert calls[k].clock <= state.ms;
    var j :| 0 <= j <= k && calls[j].clock == state.ms;
    Remainders(state.ms);
  }

  /** Each number follows from the one before: also when the counter has run over, which makes the timestamp one later. */
  lemma {:induction false} NumberFollows(calls: seq<Call>, k: nat)
    requires 0 < k < |calls| && 0 <= StateAfter(FRESH, calls[..k]).ms && StateAfter(FRESH, calls[..k + 1]).ms < TWO_48
    ensures var before, uuid := Output(FRESH, calls, k - 1), Output(FRESH, calls, k);
            var later, over := calls[k].clock > Timestamp(before), Counter(before) == 0x3FF_FFFF_FFFF_FFFF_FFFF;
            && Timestamp(uuid) == (if later then calls[k].clock else if over then Timestamp(before) + 1 else Timestamp(before))
            && Counter(uuid) == if later || over then calls[k].draw else Counter(before) + 1
  {
    assert calls[..k + 1][..k] == calls[..k];
    OutputFields(calls, k);
    OutputFields(calls, k - 1);
    Remainders(StateAfter(FRESH, calls[..k]).ms);
    Remainders(StateAfter(FRESH, calls[..k + 1]).ms);
  }

  /**
   A clock that shows -1 before the first call meets the initial value of the last
   timestamp; the first UUID then carries the largest timestamp and the next is smaller.
   */
  lemma ClockBefore1970(draw: Draw)
    ensures Output(Stamp(-1, -1), [Call(-1, draw), Call(0, draw)], 1) <
            Output(Stamp(-1, -1), [Call(-1, draw), Call(0, draw)], 0)
  {
    var calls := [Call(-1, draw), Call(0, draw)];
    var start := Stamp(-1, -1);
    assert calls[..2][..1] == calls[..1] && calls[..1][..0] == [];
    assert StateAfter(start, calls[..1]) == Stamp(-1, 0);
    assert StateAfter(start, calls[..2]) == Stamp(0, draw);
    EncodeOrder(Stamp(0, draw), Stamp(-1, 0));
  }
}
