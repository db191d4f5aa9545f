/** `cleanup_retention` as it runs: one table after the other is changed in place, and the workspaces to bump are collected. */
module RetentionStore {
  import opened Events
  import opened Retention
  import opened RetentionProgress
  import opened Wrappers

  // The workspaces that a call bumps.

  function OfNotes(t: Tables, ids: set<nat>): set<string> {
    set n | n in t.notes && n.id in ids :: n.workspaceId
  }

  predicate HasEvent(t: Tables, runId: Uuid, ids: set<nat>) {
    exists e :: e in t.events && e.runId == runId && e.id in ids
  }

  function OfEvents(t: Tables, ids: set<nat>): set<string> {
    set r | r in t.runs && HasEvent(t, r.id, ids) :: r.workspaceId
  }

  function OfRuns(t: Tables, ids: set<nat>): set<string> {
    set r | r in t.runs && r.id in ids :: r.workspaceId
  }

  function BumpedFirst(c: Config, t: Tables, now: int): set<string> {
    var t1 := AfterNotes(c, t, now);
    var t2 := AfterEvents(c, t1, now);
    OfNotes(t, Oldest(NoteKeys(c, t, now), c.batch)) + OfEvents(t1, Oldest(EventKeys(c, t1, now), c.batch))
    + OfRuns(t2, Oldest(TailKeys(c, t2, now), c.batch))
  }

  function Bumped(c: Config, t: Tables, now: int): set<string> {
    var b := BeforeRuns(c, t, now);
    BumpedFirst(c, t, now) + OfRuns(b, Oldest(RunKeys(c, b, now), c.batch))
  }

  /** What a workspace shows, but for the run that a notification refers to. */
  ghost predicate SameIn(before: Tables, after: Tables, ws: string) {
    && (forall r: RunData :: r.workspaceId == ws ==> (r in before.runs <==> r in after.runs))
    && (forall r, e: EventData :: r in before.runs && r.workspaceId == ws && e.runId == r.id ==> (e in before.events <==> e in after.events))
    && (forall n :: n in before.notes && n.workspaceId == ws ==> n in after.notes || n.(runId := None) in after.notes)
    && (forall n :: n in after.notes && n.workspaceId == ws ==> exists o :: o in before.notes && (n == o || n == o.(runId := None)))
  }

  lemma {:induction false} QuietRuns(c: Config, t: Tables, b: Tables, now: int, ws: string, r: RunData)
    requires OwnClassOnly(c, t, b, now) && r.workspaceId == ws
    requires ws !in OfRuns(t, Oldest(TailKeys(c, t, now), c.batch)) && ws !in OfRuns(b, Oldest(RunKeys(c, b, now), c.batch))
    ensures r in t.runs <==> r in AfterRuns(c, b, now).runs
    ensures r in t.runs ==> r.id !in Oldest(RunKeys(c, b, now), c.batch)
  {
    var ids := Oldest(TailKeys(c, t, now), c.batch);
    if r in t.runs {
      assert WithoutTail(r, ids) == r;
      assert r in b.runs;
    }
    if r in b.runs {
      var o :| o in t.runs && r == WithoutTail(o, ids);
      assert o == r;
    }
  }

  lemma {:induction false} QuietEvents(c: Config, t: Tables, b: Tables, now: int, r: RunData, e: EventData)
    requires OwnClassOnly(c, t, b, now) && r in t.runs && e.runId == r.id && r.id !in Oldest(RunKeys(c, b, now), c.batch)
    requires r.workspaceId !in OfEvents(t, Oldest(EventKeys(c, t, now), c.batch))
    ensures e in t.events <==> e in AfterRuns(c, b, now).events
  {
    var ids := Oldest(EventKeys(c, t, now), c.batch);
    assert e in t.events && e.id in ids ==> HasEvent(t, r.id, ids);
    assert HasEvent(t, r.id, ids) ==> r.workspaceId in OfEvents(t, ids);
  }

  lemma {:induction false} QuietNotes(c: Config, t: Tables, b: Tables, now: int, ws: string)
    requires OwnClassOnly(c, t, b, now) && ws !in OfNotes(t, Oldest(NoteKeys(c, t, now), c.batch))
    ensures forall n :: n in t.notes && n.workspaceId == ws ==> n in AfterRuns(c, b, now).notes || n.(runId := None) in AfterRuns(c, b, now).notes
    ensures forall n :: n in AfterRuns(c, b, now).notes ==> exists o :: o in t.notes && (n == o || n == o.(runId := None))
  {
    var ids, after := Oldest(RunKeys(c, b, now), c.batch), AfterRuns(c, b, now);
    forall n | n in t.notes && n.workspaceId == ws ensures n in after.notes || n.(runId := None) in after.notes {
      assert n in b.notes;
      assert Unlinked(n, ids) in after.notes;
    }
    forall n | n in after.notes ensures exists o :: o in t.notes && (n == o || n == o.(runId := None)) {
      var o :| o in b.notes && n == Unlinked(o, ids);
      assert o in t.notes;
    }
  }

  lemma {:induction false} BumpedAre(c: Config, t: Tables, now: int)
    ensures var b := BeforeRuns(c, t, now);
            Bumped(c, t, now) == OfNotes(t, Oldest(NoteKeys(c, t, now), c.batch)) + OfEvents(t, Oldest(EventKeys(c, t, now), c.batch))
                                 + OfRuns(t, Oldest(TailKeys(c, t, now), c.batch)) + OfRuns(b, Oldest(RunKeys(c, b, now), c.batch))
  {
    var t1 := AfterNotes(c, t, now);
    var t2 := AfterEvents(c, t1, now);
    assert EventKeys(c, t1, now) == EventKeys(c, t, now);
    assert TailKeys(c, t2, now) == TailKeys(c, t, now);
    var ids := Oldest(EventKeys(c, t, now), c.batch);
    forall runId ensures HasEvent(t1, runId, ids) <==> HasEvent(t, runId, ids) {
    }
    assert OfEvents(t1, ids) == OfEvents(t, ids);
    assert OfRuns(t2, Oldest(TailKeys(c, t, now), c.batch)) == OfRuns(t, Oldest(TailKeys(c, t, now), c.batch));
  }

  /** A workspace that is not bumped shows the same runs, events and notifications as before; a notification may lose the run it refers to. */
  lemma {:induction false} UnbumpedShowsSame(c: Config, t: Tables, now: int, ws: string)
    requires ws !in Bumped(c, t, now)
    ensures SameIn(t, Cleaned(c, t, now), ws)
  {
    var b, after := BeforeRuns(c, t, now), Cleaned(c, t, now);
    BeforeRunsAre(c, t, now);
    BumpedAre(c, t, now);
    forall r: RunData | r.workspaceId == ws
      ensures (r in t.runs <==> r in after.runs) && (r in t.runs ==> r.id !in Oldest(RunKeys(c, b, now), c.batch))
    {
      QuietRuns(c, t, b, now, ws, r);
    }
    forall r, e: EventData | r in t.runs && r.workspaceId == ws && e.runId == r.id ensures e in t.events <==> e in after.events {
      QuietEvents(c, t, b, now, r, e);
    }
    QuietNotes(c, t, b, now, ws);
  }

  lemma {:induction false} VisibleCounts(c: Config, t: Tables, now: int)
    ensures var t1 := AfterNotes(c, t, now);
            var t2 := AfterEvents(c, t1, now);
            && Counts(c, VISIBLE, t, now) == [CountOf(c, Notes, t, now), CountOf(c, Class.Events, t1, now), CountOf(c, Tails, t2, now)]
            && Stages(c, VISIBLE, t, now) == AfterTails(c, t2, now)
  {
  }

  lemma {:induction false} PushingCounts(c: Config, t: Tables, now: int)
    ensures var t1 := AfterPlaceholders(c, t, now);
            var t2 := AfterAttempts(c, t1, now);
            && Counts(c, PUSHING, t, now) == [CountOf(c, Placeholders, t, now), CountOf(c, Attempts, t1, now), CountOf(c, Pushes, t2, now)]
            && Stages(c, PUSHING, t, now) == AfterPushes(c, t2, now)
  {
  }

  lemma {:induction false} AgedCounts(c: Config, t: Tables, now: int)
    ensures Counts(c, AGED, t, now) == [CountOf(c, Pairings, t, now), CountOf(c, Audits, t, now), CountOf(c, Challenges, t, now)]
  {
  }

  lemma {:induction false} CountsInParts(c: Config, t: Tables, now: int)
    ensures var b := BeforeRuns(c, t, now);
            var r := AfterRuns(c, b, now);
            Counts(c, ORDER, t, now)
            == Counts(c, BEFORE_RUNS, t, now) + [CountOf(c, Runs, b, now), CountOf(c, Buckets, r, now), CountOf(c, Locks, r, now)]
  {
    CountsConcat(c, BEFORE_RUNS, FROM_RUNS, t, now);
    FirstStages(c, t, now);
  }

  class Database {
    var notes: set<NoteRow>
    var runs: set<RunData>
    var events: set<EventData>
    var bindings: set<BindingData>
    var pushes: set<PushData>
    var attempts: set<AttemptData>
    var pairings: set<Aged>
    var audits: set<Aged>
    var challenges: set<Aged>
    var buckets: set<Aged>
    var locks: set<Aged>

    function Contents(): Tables
      reads this
    {
      Tables(notes, runs, events, bindings, pushes, attempts, pairings, audits, challenges, buckets, locks)
    }

    method DeleteNotes(c: Config, now: int) returns (count: nat, changed: set<string>)
      modifies this`notes
      ensures Contents() == AfterNotes(c, old(Contents()), now) && count == CountOf(c, Notes, old(Contents()), now)
      ensures changed == OfNotes(old(Contents()), Oldest(NoteKeys(c, old(Contents()), now), c.batch))
    {
      var ids := Oldest(NoteKeys(c, Contents(), now), c.batch);
      changed := set n | n in notes && n.id in ids :: n.workspaceId;
      count := |ids|;
      notes := set n | n in notes && n.id !in ids;
    }

    method DeleteEvents(c: Config, now: int) returns (count: nat, changed: set<string>)
      modifies this`events
      ensures Contents() == AfterEvents(c, old(Contents()), now) && count == CountOf(c, Class.Events, old(Contents()), now)
      ensures changed == OfEvents(old(Contents()), Oldest(EventKeys(c, old(Contents()), now), c.batch))
    {
      var ids := Oldest(EventKeys(c, Contents(), now), c.batch);
      changed := {};
      if ids != {} {
        changed := set r | r in runs && HasEvent(Contents(), r.id, ids) :: r.workspaceId;
      }
      count := |ids|;
      events := set e | e in events && e.id !in ids;
    }

    method ClearTails(c: Config, now: int) returns (count: nat, changed: set<string>)
      modifies this`runs
      ensures Contents() == AfterTails(c, old(Contents()), now) && count == CountOf(c, Tails, old(Contents()), now)
      ensures changed == OfRuns(old(Contents()), Oldest(TailKeys(c, old(Contents()), now), c.batch))
    {
      var ids := Oldest(TailKeys(c, Contents(), now), c.batch);
      ClearedSizes(Contents(), ids);
      changed, count := {}, 0;
      if ids != {} {
        changed := set r | r in runs && r.id in ids :: r.workspaceId;
        count := |ids|;
        runs := set r | r in runs :: if r.id in ids then r.(hasTail := false) else r;
      }
      assert runs == AfterTails(c, old(Contents()), now).runs;
    }

    method ExpirePlaceholders(c: Config, now: int) returns (count: nat)
      modifies this`bindings
      ensures Contents() == AfterPlaceholders(c, old(Contents()), now) && count == CountOf(c, Placeholders, old(Contents()), now)
    {
      var ids := Oldest(PlaceholderKeys(c, Contents(), now), c.batch);
      ExpiredSizes(Contents(), ids);
      count := 0;
      if ids != {} {
        count := |ids|;
        bindings := set b | b in bindings :: if b.id in ids then b.(state := Closed, invalidated := true) else b;
      }
      assert bindings == AfterPlaceholders(c, old(Contents()), now).bindings;
    }

    method DeleteAttempts(c: Config, now: int) returns (count: nat)
      modifies this`attempts
      ensures Contents() == AfterAttempts(c, old(Contents()), now) && count == CountOf(c, Attempts, old(Contents()), now)
    {
      var ids := Oldest(AttemptKeys(c, Contents(), now), c.batch);
      count := |ids|;
      attempts := set a | a in attempts && a.id !in ids;
    }

    method DeletePushes(c: Config, now: int) returns (count: nat)
      modifies this`attempts, this`pushes
      ensures Contents() == AfterPushes(c, old(Contents()), now) && count == CountOf(c, Pushes, old(Contents()), now)
    {
      var ids := Oldest(PushKeys(c, Contents(), now), c.batch);
      count := |ids|;
      attempts := set a | a in attempts && a.push !in ids;
      pushes := set p | p in pushes && p.id !in ids;
    }

    method ExpirePushing(c: Config, now: int) returns (counts: seq<nat>)
      modifies this`bindings, this`attempts, this`pushes
      ensures Contents() == Stages(c, PUSHING, old(Contents()), now)
      ensures counts == Counts(c, PUSHING, old(Contents()), now)
    {
      PushingCounts(c, Contents(), now);
      var placeholderCount := ExpirePlaceholders(c, now);
      var attemptCount := DeleteAttempts(c, now);
      var pushCount := DeletePushes(c, now);
      counts := [placeholderCount, attemptCount, pushCount];
    }

    method DeletePairings(c: Config, now: int) returns (count: nat)
      modifies this`pairings
      ensures Contents() == AfterPairings(c, old(Contents()), now) && count == CountOf(c, Pairings, old(Contents()), now)
    {
      var cutoff := PairingCutoff(c, now);
      var ids := Oldest(AgedKeys(pairings, cutoff), c.batch);
      count, pairings := |ids|, Without(pairings, ids);
    }

    method DeleteAudits(c: Config, now: int) returns (count: nat)
      modifies this`audits
      ensures Contents() == AfterAudits(c, old(Contents()), now) && count == CountOf(c, Audits, old(Contents()), now)
    {
      var cutoff := AuditCutoff(c, now);
      var ids := Oldest(AgedKeys(audits, cutoff), c.batch);
      count, audits := |ids|, Without(audits, ids);
    }

    method DeleteChallenges(c: Config, now: int) returns (count: nat)
      modifies this`challenges
      ensures Contents() == AfterChallenges(c, old(Contents()), now) && count == CountOf(c, Challenges, old(Contents()), now)
    {
      var ids := Oldest(AgedKeys(challenges, now + 1), c.batch);
      count, challenges := |ids|, Without(challenges, ids);
    }

    method DeleteAged(c: Config, now: int) returns (counts: seq<nat>)
      modifies this`pairings, this`audits, this`challenges
      ensures Contents() == AfterChallenges(c, AfterAudits(c, AfterPairings(c, old(Contents()), now), now), now)
      ensures counts == Counts(c, AGED, old(Contents()), now)
    {
      AgedCounts(c, Contents(), now);
      var pairingCount := DeletePairings(c, now);
      var auditCount := DeleteAudits(c, now);
      var challengeCount := DeleteChallenges(c, now);
      counts := [pairingCount, auditCount, challengeCount];
    }

    method DeleteRuns(c: Config, now: int) returns (count: nat, changed: set<string>)
      modifies this`attempts, this`pushes, this`events, this`bindings, this`notes, this`runs
      ensures Contents() == AfterRuns(c, old(Contents()), now) && count == CountOf(c, Runs, old(Contents()), now)
      ensures changed == OfRuns(old(Contents()), Oldest(RunKeys(c, old(Contents()), now), c.batch))
    {
      var ids := Oldest(RunKeys(c, Contents(), now), c.batch);
      changed, count := {}, 0;
      NoRunsDeleted(Contents());
      if ids != {} {
        changed := set r | r in runs && r.id in ids :: r.workspaceId;
        count := |ids|;
        DeleteWithRuns(ids);
      }
    }

    method DeletePushesOf(ids: set<nat>)
      modifies this`attempts, this`pushes
      ensures attempts == RunsDeleted(old(Contents()), ids).attempts && pushes == RunsDeleted(old(Contents()), ids).pushes
    {
      var pushIds := set p | p in pushes && PushOf(p, ids) :: p.id;
      assert pushIds == PushIds(Contents(), ids);
      attempts := set a | a in attempts && a.push !in pushIds;
      pushes := set p | p in pushes && !PushOf(p, ids);
    }

    method DeleteRowsOf(ids: set<nat>)
      modifies this`events, this`bindings, this`notes, this`runs
      ensures events == RunsDeleted(old(Contents()), ids).events && bindings == RunsDeleted(old(Contents()), ids).bindings
      ensures notes == RunsDeleted(old(Contents()), ids).notes && runs == RunsDeleted(old(Contents()), ids).runs
    {
      events := set e | e in events && e.runId !in ids;
      bindings := set b | b in bindings && b.runId !in ids;
      notes := set n | n in notes :: Unlinked(n, ids);
      runs := set r | r in runs && r.id !in ids;
    }

    method DeleteWithRuns(ids: set<nat>)
      modifies this`attempts, this`pushes, this`events, this`bindings, this`notes, this`runs
      ensures Contents() == RunsDeleted(old(Contents()), ids)
    {
      DeletePushesOf(ids);
      DeleteRowsOf(ids);
    }

    method CleanupAbuseState(c: Config, now: int) returns (bucketCount: nat, lockCount: nat)
      modifies this`buckets, this`locks
      ensures Contents() == AfterLocks(c, AfterBuckets(old(Contents()), now), now)
      ensures bucketCount == CountOf(c, Buckets, old(Contents()), now) && lockCount == CountOf(c, Locks, old(Contents()), now)
    {
      var oldBuckets := set a | a in buckets && a.time <= now;
      var oldLocks := set a | a in locks && a.time < now - c.lockAge;
      buckets, locks := buckets - oldBuckets, locks - oldLocks;
      bucketCount, lockCount := |oldBuckets|, |oldLocks|;
      assert buckets == AfterBuckets(old(Contents()), now).buckets;
      assert locks == AfterLocks(c, old(Contents()), now).locks;
    }

    method CleanupVisible(c: Config, now: int) returns (counts: seq<nat>, changed: set<string>)
      modifies this`notes, this`events, this`runs
      ensures Contents() == Stages(c, VISIBLE, old(Contents()), now)
      ensures counts == Counts(c, VISIBLE, old(Contents()), now)
      ensures changed == BumpedFirst(c, old(Contents()), now)
    {
      VisibleCounts(c, Contents(), now);
      var noteCount, noteWorkspaces := DeleteNotes(c, now);
      var eventCount, eventWorkspaces := DeleteEvents(c, now);
      var tailCount, tailWorkspaces := ClearTails(c, now);
      counts := [noteCount, eventCount, tailCount];
      changed := noteWorkspaces + eventWorkspaces + tailWorkspaces;
    }

    method CleanupRows(c: Config, now: int) returns (counts: seq<nat>, changed: set<string>)
      modifies this
      ensures Contents() == BeforeRuns(c, old(Contents()), now)
      ensures counts == Counts(c, BEFORE_RUNS, old(Contents()), now)
      ensures changed == BumpedFirst(c, old(Contents()), now)
    {
      ghost var before := Contents();
      var visible, workspaces := CleanupVisible(c, now);
      ghost var visibleDone := Contents();
      var pushing := ExpirePushing(c, now);
      ghost var pushingDone := Contents();
      var aged := DeleteAged(c, now);
      counts, changed := visible + (pushing + aged), workspaces;
      CountsConcat(c, VISIBLE, PUSHING + AGED, before, now);
      CountsConcat(c, PUSHING, AGED, visibleDone, now);
      VisibleCounts(c, before, now);
      PushingCounts(c, visibleDone, now);
    }

    /** `cleanup_retention`: the counts it returns and the workspaces it bumps. */
    method CleanupRetention(c: Config, now: int) returns (counts: seq<nat>, changed: set<string>)
      modifies this
      ensures Contents() == Cleaned(c, old(Contents()), now)
      ensures counts == Counts(c, ORDER, old(Contents()), now)
      ensures changed == Bumped(c, old(Contents()), now)
    {
      ghost var before := Contents();
      var first, rowsChanged := CleanupRows(c, now);
      var runCount, runsChanged := DeleteRuns(c, now);
      var bucketCount, lockCount := CleanupAbuseState(c, now);
      counts := first + [runCount, bucketCount, lockCount];
      changed := rowsChanged + runsChanged;
      CountsInParts(c, before, now);
    }
  }
}
