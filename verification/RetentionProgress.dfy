/** Repeated cleanups at one time come to an end, when nothing is old enough any more. */
module RetentionProgress {
  import opened Retention
  import opened Sequences

  // Sizes.

  lemma SmallerSet<T>(a: set<T>, b: set<T>, x: T)
    requires a <= b && x in b && x !in a
    ensures |a| < |b|
  {
    SubsetSize(a, b - {x});
  }

  /** A table has no more rows after each row has been rewritten. */
  lemma {:induction false} ImageSize<S, T>(rows: set<S>, image: set<T>, f: S -> T)
    requires forall x :: x in image ==> exists r :: r in rows && f(r) == x
    ensures |image| <= |rows|
    decreases |rows|
  {
    if rows != {} {
      var r :| r in rows;
      ImageSize(rows - {r}, image - {f(r)}, f);
      SubsetSize(image, image - {f(r)} + {f(r)});
    } else {
      assert image == {};
    }
  }

  function Tailed(runs: set<RunData>): set<RunData> {
    set r | r in runs && r.hasTail
  }

  function Waiting(bindings: set<BindingData>): set<BindingData> {
    set b | b in bindings && b.placeholder && b.state == Active
  }

  /** What is left to clean: rows, log tails and placeholders. */
  function Weight(t: Tables): nat {
    |t.notes| + |t.runs| + |t.events| + |t.bindings| + |t.pushes| + |t.attempts|
    + |t.pairings| + |t.audits| + |t.challenges| + |t.buckets| + |t.locks| + |Tailed(t.runs)| + |Waiting(t.bindings)|
  }

  // One class at a time.

  lemma {:induction false} NotesStage(c: Config, t: Tables, now: int)
    requires c.batch > 0
    ensures if NoteKeys(c, t, now) == {} then AfterNotes(c, t, now) == t else Weight(AfterNotes(c, t, now)) < Weight(t)
  {
    var after := AfterNotes(c, t, now);
    OldestPicks(NoteKeys(c, t, now), c.batch);
    SubsetSize(after.notes, t.notes);
    if NoteKeys(c, t, now) == {} {
      assert after.notes == t.notes;
    } else {
      var id :| id in Oldest(NoteKeys(c, t, now), c.batch);
      var k := PickedIsKey(NoteKeys(c, t, now), c.batch, id);
      var n :| n in t.notes && OldNote(c, t, n, now) && k == Key(n.createdAt, n.id);
      SmallerSet(after.notes, t.notes, n);
    }
  }

  lemma {:induction false} EventsStage(c: Config, t: Tables, now: int)
    requires c.batch > 0
    ensures if EventKeys(c, t, now) == {} then AfterEvents(c, t, now) == t else Weight(AfterEvents(c, t, now)) < Weight(t)
  {
    var after := AfterEvents(c, t, now);
    OldestPicks(EventKeys(c, t, now), c.batch);
    SubsetSize(after.events, t.events);
    if EventKeys(c, t, now) == {} {
      assert after.events == t.events;
    } else {
      var id :| id in Oldest(EventKeys(c, t, now), c.batch);
      var k := PickedIsKey(EventKeys(c, t, now), c.batch, id);
      var e :| e in t.events && OldEvent(c, t, e, now) && k == Key(e.receivedAt, e.id);
      SmallerSet(after.events, t.events, e);
    }
  }

  lemma {:induction false} ClearedSizes(t: Tables, ids: set<nat>)
    ensures var after := TailsCleared(t, ids); |after.runs| <= |t.runs| && Tailed(after.runs) <= Tailed(t.runs)
    ensures forall r :: r in t.runs && r.id in ids ==> r !in Tailed(TailsCleared(t, ids).runs)
    ensures ids == {} ==> TailsCleared(t, ids) == t
  {
    var after := TailsCleared(t, ids);
    ImageSize(t.runs, after.runs, r => WithoutTail(r, ids));
    forall x | x in Tailed(after.runs) ensures x in Tailed(t.runs) && x.id !in ids {
      var r :| r in t.runs && x == WithoutTail(r, ids);
    }
    if ids == {} {
      forall r ensures r in after.runs <==> r in t.runs {
        if r in t.runs { assert WithoutTail(r, ids) == r; }
      }
      assert after.runs == t.runs;
    }
  }

  lemma {:induction false} TailsStage(c: Config, t: Tables, now: int)
    requires c.batch > 0
    ensures if TailKeys(c, t, now) == {} then AfterTails(c, t, now) == t else Weight(AfterTails(c, t, now)) < Weight(t)
  {
    var after, ids := AfterTails(c, t, now), Oldest(TailKeys(c, t, now), c.batch);
    OldestPicks(TailKeys(c, t, now), c.batch);
    ClearedSizes(t, ids);
    SubsetSize(Tailed(after.runs), Tailed(t.runs));
    if TailKeys(c, t, now) != {} {
      var id :| id in ids;
      var k := PickedIsKey(TailKeys(c, t, now), c.batch, id);
      var r :| r in t.runs && OldTail(c, r, now) && k == Key(r.updatedAt, r.id);
      SmallerSet(Tailed(after.runs), Tailed(t.runs), r);
    }
  }

  lemma {:induction false} ExpiredSizes(t: Tables, ids: set<nat>)
    ensures var after := PlaceholdersExpired(t, ids); |after.bindings| <= |t.bindings| && Waiting(after.bindings) <= Waiting(t.bindings)
    ensures forall b :: b in t.bindings && b.id in ids ==> b !in Waiting(PlaceholdersExpired(t, ids).bindings)
    ensures ids == {} ==> PlaceholdersExpired(t, ids) == t
  {
    var after := PlaceholdersExpired(t, ids);
    ImageSize(t.bindings, after.bindings, b => ExpiredIn(b, ids));
    forall x | x in Waiting(after.bindings) ensures x in Waiting(t.bindings) && x.id !in ids {
      var b :| b in t.bindings && x == ExpiredIn(b, ids);
    }
    if ids == {} {
      forall b ensures b in after.bindings <==> b in t.bindings {
        if b in t.bindings { assert ExpiredIn(b, ids) == b; }
      }
      assert after.bindings == t.bindings;
    }
  }

  lemma {:induction false} PlaceholdersStage(c: Config, t: Tables, now: int)
    requires c.batch > 0
    ensures if PlaceholderKeys(c, t, now) == {} then AfterPlaceholders(c, t, now) == t else Weight(AfterPlaceholders(c, t, now)) < Weight(t)
  {
    var after, ids := AfterPlaceholders(c, t, now), Oldest(PlaceholderKeys(c, t, now), c.batch);
    OldestPicks(PlaceholderKeys(c, t, now), c.batch);
    ExpiredSizes(t, ids);
    SubsetSize(Waiting(after.bindings), Waiting(t.bindings));
    if PlaceholderKeys(c, t, now) != {} {
      var id :| id in ids;
      var k := PickedIsKey(PlaceholderKeys(c, t, now), c.batch, id);
      var b :| b in t.bindings && StalePlaceholder(c, b, now) && k == Key(b.startedAt, b.id);
      SmallerSet(Waiting(after.bindings), Waiting(t.bindings), b);
    }
  }

  lemma {:induction false} AttemptsStage(c: Config, t: Tables, now: int)
    requires c.batch > 0
    ensures if AttemptKeys(c, t, now) == {} then AfterAttempts(c, t, now) == t else Weight(AfterAttempts(c, t, now)) < Weight(t)
  {
    var after := AfterAttempts(c, t, now);
    OldestPicks(AttemptKeys(c, t, now), c.batch);
    SubsetSize(after.attempts, t.attempts);
    if AttemptKeys(c, t, now) == {} {
      assert after.attempts == t.attempts;
    } else {
      var id :| id in Oldest(AttemptKeys(c, t, now), c.batch);
      var k := PickedIsKey(AttemptKeys(c, t, now), c.batch, id);
      var a :| a in t.attempts && OldAttempt(c, a, now) && k == Key(a.at, a.id);
      SmallerSet(after.attempts, t.attempts, a);
    }
  }

  lemma {:induction false} PushesStage(c: Config, t: Tables, now: int)
    requires c.batch > 0
    ensures if PushKeys(c, t, now) == {} then AfterPushes(c, t, now) == t else Weight(AfterPushes(c, t, now)) < Weight(t)
  {
    var after := AfterPushes(c, t, now);
    OldestPicks(PushKeys(c, t, now), c.batch);
    SubsetSize(after.attempts, t.attempts);
    SubsetSize(after.pushes, t.pushes);
    if PushKeys(c, t, now) == {} {
      assert after.pushes == t.pushes && after.attempts == t.attempts;
    } else {
      var id :| id in Oldest(PushKeys(c, t, now), c.batch);
      var k := PickedIsKey(PushKeys(c, t, now), c.batch, id);
      var p :| p in t.pushes && OldPush(c, p, now) && k == Key(p.updatedAt, p.id);
      SmallerSet(after.pushes, t.pushes, p);
    }
  }

  lemma {:induction false} KeptLess(rows: set<Aged>, before: int, batch: nat)
    requires batch > 0
    ensures if AgedKeys(rows, before) == {} then Kept(rows, before, batch) == rows else |Kept(rows, before, batch)| < |rows|
  {
    var keys := AgedKeys(rows, before);
    OldestPicks(keys, batch);
    if keys == {} {
      assert Kept(rows, before, batch) == rows;
    } else {
      var id :| id in Oldest(keys, batch);
      var k := PickedIsKey(keys, batch, id);
      var a :| a in rows && a.time < before && k == Key(a.time, a.id);
      SmallerSet(Kept(rows, before, batch), rows, a);
    }
  }

  lemma {:induction false} KeptSize(kept: set<Aged>, gone: set<Aged>, rows: set<Aged>)
    requires kept <= rows && gone == rows - kept
    ensures if gone == {} then kept == rows else |kept| < |rows|
    ensures |gone| == 0 <==> gone == {}
  {
    if gone != {} {
      var a :| a in gone;
      SmallerSet(kept, rows, a);
    } else {
      assert rows <= kept;
    }
  }

  function OldBuckets(t: Tables, now: int): set<Aged> {
    set a | a in t.buckets && a.time <= now
  }

  function OldLocks(c: Config, t: Tables, now: int): set<Aged> {
    set a | a in t.locks && a.time < now - c.lockAge
  }

  lemma {:induction false} RunsDeletedSizes(t: Tables, ids: set<nat>)
    ensures var after := RunsDeleted(t, ids);
            && |after.notes| <= |t.notes| && |after.events| <= |t.events| && |after.bindings| <= |t.bindings|
            && |after.pushes| <= |t.pushes| && |after.attempts| <= |t.attempts|
            && |Tailed(after.runs)| <= |Tailed(t.runs)| && |Waiting(after.bindings)| <= |Waiting(t.bindings)| && after.runs <= t.runs
  {
    var after := RunsDeleted(t, ids);
    ImageSize(t.notes, after.notes, n => Unlinked(n, ids));
    SubsetSize(after.events, t.events);
    SubsetSize(after.bindings, t.bindings);
    SubsetSize(after.pushes, t.pushes);
    SubsetSize(after.attempts, t.attempts);
    SubsetSize(Tailed(after.runs), Tailed(t.runs));
    SubsetSize(Waiting(after.bindings), Waiting(t.bindings));
  }

  lemma {:induction false} NoRunsDeleted(t: Tables)
    ensures RunsDeleted(t, {}) == t
  {
    var after := RunsDeleted(t, {});
    assert PushIds(t, {}) == {};
    assert after.attempts == t.attempts && after.pushes == t.pushes && after.events == t.events;
    assert after.bindings == t.bindings && after.runs == t.runs;
    forall n ensures n in after.notes <==> n in t.notes {
      if n in t.notes { assert Unlinked(n, {}) == n; }
    }
    assert after.notes == t.notes;
  }

  lemma {:induction false} RunsStage(c: Config, t: Tables, now: int)
    requires c.batch > 0
    ensures if RunKeys(c, t, now) == {} then AfterRuns(c, t, now) == t else Weight(AfterRuns(c, t, now)) < Weight(t)
  {
    var after, ids := AfterRuns(c, t, now), Oldest(RunKeys(c, t, now), c.batch);
    OldestPicks(RunKeys(c, t, now), c.batch);
    RunsDeletedSizes(t, ids);
    SubsetSize(after.runs, t.runs);
    if RunKeys(c, t, now) == {} {
      NoRunsDeleted(t);
    } else {
      var id :| id in ids;
      var k := PickedIsKey(RunKeys(c, t, now), c.batch, id);
      var r :| r in t.runs && OldRun(c, t, r, now) && k == Key(r.endedAt.value, r.id);
      SmallerSet(after.runs, t.runs, r);
    }
  }

  // A call.

  /** The classes of rows. */
  datatype Class =
    | Notes | Events | Tails | Placeholders | Attempts | Pushes | Pairings | Audits | Challenges | Runs | Buckets | Locks

  const VISIBLE := [Notes, Events, Tails]

  const PUSHING := [Placeholders, Attempts, Pushes]

  const AGED := [Pairings, Audits, Challenges]

  const BEFORE_RUNS := VISIBLE + (PUSHING + AGED)

  const FROM_RUNS := [Runs, Buckets, Locks]

  const ORDER := BEFORE_RUNS + FROM_RUNS

  /** What a call does to one class. */
  function StageOf(c: Config, class0: Class, t: Tables, now: int): Tables {
    match class0
    case Notes => AfterNotes(c, t, now)
    case Events => AfterEvents(c, t, now)
    case Tails => AfterTails(c, t, now)
    case Placeholders => AfterPlaceholders(c, t, now)
    case Attempts => AfterAttempts(c, t, now)
    case Pushes => AfterPushes(c, t, now)
    case Pairings => AfterPairings(c, t, now)
    case Audits => AfterAudits(c, t, now)
    case Challenges => AfterChallenges(c, t, now)
    case Runs => AfterRuns(c, t, now)
    case Buckets => AfterBuckets(t, now)
    case Locks => AfterLocks(c, t, now)
  }

  /** The count that a call reports for a class. */
  function CountOf(c: Config, class0: Class, t: Tables, now: int): nat {
    match class0
    case Notes => |Oldest(NoteKeys(c, t, now), c.batch)|
    case Events => |Oldest(EventKeys(c, t, now), c.batch)|
    case Tails => |Oldest(TailKeys(c, t, now), c.batch)|
    case Placeholders => |Oldest(PlaceholderKeys(c, t, now), c.batch)|
    case Attempts => |Oldest(AttemptKeys(c, t, now), c.batch)|
    case Pushes => |Oldest(PushKeys(c, t, now), c.batch)|
    case Pairings => |Oldest(AgedKeys(t.pairings, PairingCutoff(c, now)), c.batch)|
    case Audits => |Oldest(AgedKeys(t.audits, AuditCutoff(c, now)), c.batch)|
    case Challenges => |Oldest(AgedKeys(t.challenges, now + 1), c.batch)|
    case Runs => |Oldest(RunKeys(c, t, now), c.batch)|
    case Buckets => |OldBuckets(t, now)|
    case Locks => |OldLocks(c, t, now)|
  }

  /** No row of a class is old enough. */
  predicate NoneEligible(c: Config, class0: Class, t: Tables, now: int) {
    match class0
    case Notes => NoteKeys(c, t, now) == {}
    case Events => EventKeys(c, t, now) == {}
    case Tails => TailKeys(c, t, now) == {}
    case Placeholders => PlaceholderKeys(c, t, now) == {}
    case Attempts => AttemptKeys(c, t, now) == {}
    case Pushes => PushKeys(c, t, now) == {}
    case Pairings => AgedKeys(t.pairings, PairingCutoff(c, now)) == {}
    case Audits => AgedKeys(t.audits, AuditCutoff(c, now)) == {}
    case Challenges => AgedKeys(t.challenges, now + 1) == {}
    case Runs => RunKeys(c, t, now) == {}
    case Buckets => OldBuckets(t, now) == {}
    case Locks => OldLocks(c, t, now) == {}
  }

  /** A call, class by class, and the counts it returns. */
  function Stages(c: Config, classes: seq<Class>, t: Tables, now: int): Tables
    decreases |classes|
  {
    if classes == [] then t else Stages(c, classes[1..], StageOf(c, classes[0], t, now), now)
  }

  function Counts(c: Config, classes: seq<Class>, t: Tables, now: int): seq<nat>
    decreases |classes|
  {
    if classes == [] then [] else [CountOf(c, classes[0], t, now)] + Counts(c, classes[1..], StageOf(c, classes[0], t, now), now)
  }

  /** The classes one after the other, by name or in order, make up a call. */
  lemma {:induction false} StagesAreCleaned(c: Config, t: Tables, now: int)
    ensures Stages(c, ORDER, t, now) == Cleaned(c, t, now)
  {
    var t9 := BeforeRuns(c, t, now);
    FirstStages(c, t, now);
    LastStages(c, t9, now);
    StagesConcat(c, BEFORE_RUNS, FROM_RUNS, t, now);
  }

  lemma {:induction false} StagesConcat(c: Config, a: seq<Class>, b: seq<Class>, t: Tables, now: int)
    ensures Stages(c, a + b, t, now) == Stages(c, b, Stages(c, a, t, now), now)
    decreases |a|
  {
    if a == [] {
      assert a + b == b;
    } else {
      assert (a + b)[1..] == a[1..] + b;
      StagesConcat(c, a[1..], b, StageOf(c, a[0], t, now), now);
    }
  }

  lemma ConsConcat(n: nat, a: seq<nat>, b: seq<nat>)
    ensures [n] + (a + b) == [n] + a + b
  {
  }

  lemma {:induction false} CountsConcat(c: Config, a: seq<Class>, b: seq<Class>, t: Tables, now: int)
    ensures Counts(c, a + b, t, now) == Counts(c, a, t, now) + Counts(c, b, Stages(c, a, t, now), now)
    decreases |a|
  {
    if a == [] {
      assert a + b == b;
    } else {
      var next := StageOf(c, a[0], t, now);
      assert (a + b)[0] == a[0] && (a + b)[1..] == a[1..] + b;
      CountsConcat(c, a[1..], b, next, now);
      ConsConcat(CountOf(c, a[0], t, now), Counts(c, a[1..], next, now), Counts(c, b, Stages(c, a[1..], next, now), now));
    }
  }

  lemma {:induction false} FirstStages(c: Config, t: Tables, now: int)
    ensures Stages(c, BEFORE_RUNS, t, now) == BeforeRuns(c, t, now)
  {
    StagesConcat(c, VISIBLE, PUSHING + AGED, t, now);
    StagesConcat(c, PUSHING, AGED, Stages(c, VISIBLE, t, now), now);
  }

  lemma {:induction false} LastStages(c: Config, t: Tables, now: int)
    ensures Stages(c, FROM_RUNS, t, now) == AfterLocks(c, AfterBuckets(AfterRuns(c, t, now), now), now)
  {
  }

  lemma {:induction false} EmptyPicks(keys: set<Key>, batch: nat)
    requires batch > 0
    ensures |Oldest(keys, batch)| == 0 <==> keys == {}
  {
    OldestPicks(keys, batch);
  }

  lemma {:induction false} PairingsStageAt(t: Tables, before: int, batch: nat)
    requires batch > 0
    ensures var after := t.(pairings := Kept(t.pairings, before, batch));
            if AgedKeys(t.pairings, before) == {} then after == t else Weight(after) < Weight(t)
  {
    KeptLess(t.pairings, before, batch);
  }

  lemma {:induction false} AuditsStageAt(t: Tables, before: int, batch: nat)
    requires batch > 0
    ensures var after := t.(audits := Kept(t.audits, before, batch));
            if AgedKeys(t.audits, before) == {} then after == t else Weight(after) < Weight(t)
  {
    KeptLess(t.audits, before, batch);
  }

  lemma {:induction false} ChallengesStageAt(t: Tables, before: int, batch: nat)
    requires batch > 0
    ensures var after := t.(challenges := Kept(t.challenges, before, batch));
            if AgedKeys(t.challenges, before) == {} then after == t else Weight(after) < Weight(t)
  {
    KeptLess(t.challenges, before, batch);
  }

  lemma {:induction false} PairingsStage(c: Config, t: Tables, now: int)
    requires c.batch > 0
    ensures if AgedKeys(t.pairings, PairingCutoff(c, now)) == {} then AfterPairings(c, t, now) == t else Weight(AfterPairings(c, t, now)) < Weight(t)
  {
    PairingsStageAt(t, PairingCutoff(c, now), c.batch);
  }

  lemma {:induction false} AuditsStage(c: Config, t: Tables, now: int)
    requires c.batch > 0
    ensures if AgedKeys(t.audits, AuditCutoff(c, now)) == {} then AfterAudits(c, t, now) == t else Weight(AfterAudits(c, t, now)) < Weight(t)
  {
    AuditsStageAt(t, AuditCutoff(c, now), c.batch);
  }

  lemma {:induction false} ChallengesStage(c: Config, t: Tables, now: int)
    requires c.batch > 0
    ensures if AgedKeys(t.challenges, now + 1) == {} then AfterChallenges(c, t, now) == t else Weight(AfterChallenges(c, t, now)) < Weight(t)
  {
    ChallengesStageAt(t, now + 1, c.batch);
  }

  lemma {:induction false} BucketsStage(t: Tables, now: int)
    ensures |OldBuckets(t, now)| == 0 <==> OldBuckets(t, now) == {}
    ensures if OldBuckets(t, now) == {} then AfterBuckets(t, now) == t else Weight(AfterBuckets(t, now)) < Weight(t)
  {
    KeptSize(AfterBuckets(t, now).buckets, OldBuckets(t, now), t.buckets);
  }

  lemma {:induction false} LocksStage(c: Config, t: Tables, now: int)
    ensures |OldLocks(c, t, now)| == 0 <==> OldLocks(c, t, now) == {}
    ensures if OldLocks(c, t, now) == {} then AfterLocks(c, t, now) == t else Weight(AfterLocks(c, t, now)) < Weight(t)
  {
    KeptSize(AfterLocks(c, t, now).locks, OldLocks(c, t, now), t.locks);
  }

  /** A class counts nothing exactly if none of its rows is old enough; then it changes nothing, and otherwise it leaves less. */
  lemma {:induction false} StageShrinks(c: Config, class0: Class, t: Tables, now: int)
    requires c.batch > 0
    ensures CountOf(c, class0, t, now) == 0 <==> NoneEligible(c, class0, t, now)
    ensures if NoneEligible(c, class0, t, now) then StageOf(c, class0, t, now) == t else Weight(StageOf(c, class0, t, now)) < Weight(t)
  {
    match class0
    case Notes => NotesStage(c, t, now); EmptyPicks(NoteKeys(c, t, now), c.batch);
    case Events => EventsStage(c, t, now); EmptyPicks(EventKeys(c, t, now), c.batch);
    case Tails => TailsStage(c, t, now); EmptyPicks(TailKeys(c, t, now), c.batch);
    case Placeholders => PlaceholdersStage(c, t, now); EmptyPicks(PlaceholderKeys(c, t, now), c.batch);
    case Attempts => AttemptsStage(c, t, now); EmptyPicks(AttemptKeys(c, t, now), c.batch);
    case Pushes => PushesStage(c, t, now); EmptyPicks(PushKeys(c, t, now), c.batch);
    case Pairings => PairingsStage(c, t, now); EmptyPicks(AgedKeys(t.pairings, PairingCutoff(c, now)), c.batch);
    case Audits => AuditsStage(c, t, now); EmptyPicks(AgedKeys(t.audits, AuditCutoff(c, now)), c.batch);
    case Challenges => ChallengesStage(c, t, now); EmptyPicks(AgedKeys(t.challenges, now + 1), c.batch);
    case Buckets => BucketsStage(t, now);
    case Locks => LocksStage(c, t, now);
    case Runs => RunsStage(c, t, now); EmptyPicks(RunKeys(c, t, now), c.batch);
  }

  predicate AllZero(counts: seq<nat>) {
    forall i :: 0 <= i < |counts| ==> counts[i] == 0
  }

  predicate NothingEligible(c: Config, classes: seq<Class>, t: Tables, now: int) {
    forall i :: 0 <= i < |classes| ==> NoneEligible(c, classes[i], t, now)
  }

  lemma AllZeroCons(n: nat, rest: seq<nat>)
    ensures AllZero([n] + rest) <==> n == 0 && AllZero(rest)
  {
    var all := [n] + rest;
    if AllZero(all) {
      assert all[0] == n;
      assert forall i :: 0 <= i < |rest| ==> rest[i] == all[i + 1];
    }
  }

  predicate ReportsZero(c: Config, classes: seq<Class>, t: Tables, now: int) {
    AllZero(Counts(c, classes, t, now))
  }

  lemma {:induction false} StagesShrink(c: Config, classes: seq<Class>, t: Tables, now: int)
    requires c.batch > 0
    ensures ReportsZero(c, classes, t, now) <==> NothingEligible(c, classes, t, now)
    ensures if ReportsZero(c, classes, t, now) then Stages(c, classes, t, now) == t else Weight(Stages(c, classes, t, now)) < Weight(t)
    decreases |classes|
  {
    if classes != [] {
      var next, rest := StageOf(c, classes[0], t, now), classes[1..];
      StageShrinks(c, classes[0], t, now);
      StagesShrink(c, rest, next, now);
      AllZeroCons(CountOf(c, classes[0], t, now), Counts(c, rest, next, now));
      assert forall i :: 1 <= i < |classes| ==> classes[i] == rest[i - 1];
      assert NothingEligible(c, classes, t, now) <==> NoneEligible(c, classes[0], t, now) && NothingEligible(c, rest, t, now);
    }
  }

  /**
   A call reports nothing exactly if no row of any class is old enough, and then it has
   changed nothing; otherwise there is less left to clean.
   */
  lemma {:induction false} ReportsNothing(c: Config, t: Tables, now: int)
    requires c.batch > 0
    ensures ReportsZero(c, ORDER, t, now) <==> NothingEligible(c, ORDER, t, now)
    ensures if ReportsZero(c, ORDER, t, now) then Cleaned(c, t, now) == t else Weight(Cleaned(c, t, now)) < Weight(t)
  {
    StagesShrink(c, ORDER, t, now);
    StagesAreCleaned(c, t, now);
  }

  /** The tables after `n` calls at the same time. */
  function Repeated(c: Config, classes: seq<Class>, t: Tables, now: int, n: nat): Tables
    decreases n
  {
    if n == 0 then t else Repeated(c, classes, Stages(c, classes, t, now), now, n - 1)
  }

  /** Whatever the classes of a call: after no more calls than there is to clean, one reports nothing. */
  lemma {:induction false} CleaningEnds(c: Config, classes: seq<Class>, t: Tables, now: int) returns (n: nat)
    requires c.batch > 0
    ensures n <= Weight(t) && ReportsZero(c, classes, Repeated(c, classes, t, now, n), now)
    decreases Weight(t)
  {
    StagesShrink(c, classes, t, now);
    n := 0;
    if !ReportsZero(c, classes, t, now) {
      var next := Stages(c, classes, t, now);
      var rest := CleaningEnds(c, classes, next, now);
      n := rest + 1;
      assert Repeated(c, classes, t, now, n) == Repeated(c, classes, next, now, rest);
    }
  }
}
