/**
 What one cleanup makes of each row, in the columns of the rows (server/app/retention.py:
 cleanup_retention): when it goes or changes, and that nothing else does.
 */
module RetentionFates {
  import opened Wrappers
  import opened Events
  import opened Retention
  import opened RetentionProgress
  import opened RetentionBatches

  // Rows of any class.

  ghost function OlderOnes<T(!new)>(eligible: set<T>, key: T -> Key, x: T): set<T> {
    set y | y in eligible && Older(key(y), key(x))
  }

  /** The row is old enough, and the batch is not full before its turn. */
  ghost predicate IsTaken<T(!new)>(eligible: set<T>, key: T -> Key, batch: nat, x: T) {
    x in eligible && |OlderOnes(eligible, key, x)| < batch
  }

  lemma {:induction false} TakenIfPicked<T(!new)>(rows: set<T>, eligible: set<T>, key: T -> Key, keys: set<Key>, batch: nat, x: T)
    requires eligible <= rows && OneKeyEach(rows, key) && x in rows && IsImage(keys, eligible, key)
    ensures key(x).id in Oldest(keys, batch) <==> IsTaken(eligible, key, batch, x)
  {
    PickedRow(rows, eligible, key, keys, batch, x);
    if x in eligible {
      var older := set k | k in keys && Older(k, key(x));
      forall k ensures k in older <==> exists y :: y in OlderOnes(eligible, key, x) && key(y) == k {
        if k in older {
          var y :| y in eligible && key(y) == k;
          assert y in OlderOnes(eligible, key, x);
        }
      }
      InjectiveImage(OlderOnes(eligible, key, x), older, key);
      assert key(x) in keys;
    }
  }

  // Notifications.

  /** Expired or too old, and not about a run that goes on. */
  predicate IsOverdue(c: Config, t: Tables, n: NoteRow, now: int) {
    && (n.createdAt < now - c.noteAge || (n.expiresAt != None && n.expiresAt.value <= now))
    && forall r :: r in t.runs && n.runId == Some(r.id) ==> r.status in {SUCCEEDED, FAILED, CANCELLED, LOST}
  }

  function Overdue(c: Config, t: Tables, now: int): set<NoteRow> {
    set n | n in t.notes && IsOverdue(c, t, n, now)
  }

  ghost predicate NoteGoes(c: Config, t: Tables, now: int, n: NoteRow) {
    IsTaken(Overdue(c, t, now), NoteKey, c.batch, n)
  }

  lemma {:induction false} NotesGo(c: Config, t: Tables, now: int, n: NoteRow)
    requires UniqueKeys(t) && n in t.notes
    ensures n in AfterNotes(c, t, now).notes <==> !NoteGoes(c, t, now, n)
  {
    NoteKeysAre(c, t, now);
    assert Overdue(c, t, now) == OldNotes(c, t, now);
    TakenIfPicked(t.notes, Overdue(c, t, now), NoteKey, NoteKeys(c, t, now), c.batch, n);
  }

  // Events.

  predicate IsOldEvent(c: Config, t: Tables, e: EventData, now: int) {
    e.receivedAt < now - c.eventAge && exists r :: r in t.runs && r.id == e.runId && r.status in {SUCCEEDED, FAILED, CANCELLED, LOST}
  }

  function EventKey(e: EventData): Key {
    Key(e.receivedAt, e.id)
  }

  function OldEvents(c: Config, t: Tables, now: int): set<EventData> {
    set e | e in t.events && IsOldEvent(c, t, e, now)
  }

  ghost predicate EventGoes(c: Config, t: Tables, now: int, e: EventData) {
    IsTaken(OldEvents(c, t, now), EventKey, c.batch, e)
  }

  lemma {:induction false} EventKeysAre(c: Config, t: Tables, now: int)
    ensures IsImage(EventKeys(c, t, now), OldEvents(c, t, now), EventKey)
  {
    forall k ensures k in EventKeys(c, t, now) <==> exists e :: e in OldEvents(c, t, now) && EventKey(e) == k {
      if k in EventKeys(c, t, now) {
        var e :| e in t.events && OldEvent(c, t, e, now) && k == EventKey(e);
        assert e in OldEvents(c, t, now);
      }
    }
  }

  lemma {:induction false} EventsGo(c: Config, t: Tables, now: int, e: EventData)
    requires UniqueKeys(t) && e in t.events
    ensures e in AfterEvents(c, t, now).events <==> !EventGoes(c, t, now, e)
  {
    EventKeysAre(c, t, now);
    TakenIfPicked(t.events, OldEvents(c, t, now), EventKey, EventKeys(c, t, now), c.batch, e);
  }

  // Log tails.

  function TailKey(r: RunData): Key {
    Key(r.updatedAt, r.id)
  }

  function OldTails(c: Config, t: Tables, now: int): set<RunData> {
    set r | r in t.runs && r.hasTail && r.updatedAt < now - c.tailAge
  }

  ghost predicate TailGoes(c: Config, t: Tables, now: int, r: RunData) {
    IsTaken(OldTails(c, t, now), TailKey, c.batch, r)
  }

  lemma {:induction false} TailKeysAre(c: Config, t: Tables, now: int)
    ensures IsImage(TailKeys(c, t, now), OldTails(c, t, now), TailKey)
  {
    forall k ensures k in TailKeys(c, t, now) <==> exists r :: r in OldTails(c, t, now) && TailKey(r) == k {
      if k in TailKeys(c, t, now) {
        var r :| r in t.runs && OldTail(c, r, now) && k == TailKey(r);
        assert r in OldTails(c, t, now);
      }
    }
  }

  lemma {:induction false} TailsGo(c: Config, t: Tables, now: int, r: RunData)
    requires UniqueKeys(t) && r in t.runs
    ensures r.id in Oldest(TailKeys(c, t, now), c.batch) <==> TailGoes(c, t, now, r)
  {
    TailKeysAre(c, t, now);
    TakenIfPicked(t.runs, OldTails(c, t, now), TailKey, TailKeys(c, t, now), c.batch, r);
  }

  // Placeholders.

  function BindingKey(b: BindingData): Key {
    Key(b.startedAt, b.id)
  }

  function StalePlaceholders(c: Config, t: Tables, now: int): set<BindingData> {
    set b | b in t.bindings && b.placeholder && b.state == Active && b.startedAt < now - c.placeholderAge
  }

  ghost predicate PlaceholderGoes(c: Config, t: Tables, now: int, b: BindingData) {
    IsTaken(StalePlaceholders(c, t, now), BindingKey, c.batch, b)
  }

  lemma {:induction false} PlaceholderKeysAre(c: Config, t: Tables, now: int)
    ensures IsImage(PlaceholderKeys(c, t, now), StalePlaceholders(c, t, now), BindingKey)
  {
    forall k ensures k in PlaceholderKeys(c, t, now) <==> exists b :: b in StalePlaceholders(c, t, now) && BindingKey(b) == k {
      if k in PlaceholderKeys(c, t, now) {
        var b :| b in t.bindings && StalePlaceholder(c, b, now) && k == BindingKey(b);
        assert b in StalePlaceholders(c, t, now);
      }
    }
  }

  lemma {:induction false} PlaceholdersGo(c: Config, t: Tables, now: int, b: BindingData)
    requires UniqueKeys(t) && b in t.bindings
    ensures b.id in Oldest(PlaceholderKeys(c, t, now), c.batch) <==> PlaceholderGoes(c, t, now, b)
  {
    PlaceholderKeysAre(c, t, now);
    TakenIfPicked(t.bindings, StalePlaceholders(c, t, now), BindingKey, PlaceholderKeys(c, t, now), c.batch, b);
  }

  // Pushes and attempts.

  function ClosedPushes(c: Config, t: Tables, now: int): set<PushData> {
    set p | p in t.pushes && !p.pending && p.updatedAt < now - c.pushAge
  }

  ghost predicate PushGoes(c: Config, t: Tables, now: int, p: PushData) {
    IsTaken(ClosedPushes(c, t, now), PushKey, c.batch, p)
  }

  lemma {:induction false} PushesGo(c: Config, t: Tables, now: int, p: PushData)
    requires UniquePushes(t) && p in t.pushes
    ensures p.id in Oldest(PushKeys(c, t, now), c.batch) <==> PushGoes(c, t, now, p)
  {
    PushKeysAre(c, t, now);
    assert ClosedPushes(c, t, now) == OldPushes(c, t, now);
    TakenIfPicked(t.pushes, ClosedPushes(c, t, now), PushKey, PushKeys(c, t, now), c.batch, p);
  }

  function PastAttempts(c: Config, t: Tables, now: int): set<AttemptData> {
    set a | a in t.attempts && a.at < now - c.attemptAge
  }

  ghost predicate AttemptGoes(c: Config, t: Tables, now: int, a: AttemptData) {
    IsTaken(PastAttempts(c, t, now), AttemptKey, c.batch, a)
  }

  lemma {:induction false} AttemptsGo(c: Config, t: Tables, now: int, a: AttemptData)
    requires UniquePushes(t) && a in t.attempts
    ensures a.id in Oldest(AttemptKeys(c, t, now), c.batch) <==> AttemptGoes(c, t, now, a)
  {
    AttemptKeysAre(c, t, now);
    assert PastAttempts(c, t, now) == OldAttempts(c, t, now);
    TakenIfPicked(t.attempts, PastAttempts(c, t, now), AttemptKey, AttemptKeys(c, t, now), c.batch, a);
  }

  // Rows that nothing refers to.

  function AgedKey(a: Aged): Key {
    Key(a.time, a.id)
  }

  function Aging(rows: set<Aged>, before: int): set<Aged> {
    set a | a in rows && a.time < before
  }

  ghost predicate AgedGoes(rows: set<Aged>, before: int, batch: nat, a: Aged) {
    IsTaken(Aging(rows, before), AgedKey, batch, a)
  }

  lemma {:induction false} AgedKeysAre(rows: set<Aged>, before: int)
    ensures IsImage(AgedKeys(rows, before), Aging(rows, before), AgedKey)
  {
    forall k ensures k in AgedKeys(rows, before) <==> exists a :: a in Aging(rows, before) && AgedKey(a) == k {
      if k in AgedKeys(rows, before) {
        var a :| a in rows && a.time < before && k == AgedKey(a);
        assert a in Aging(rows, before);
      }
    }
  }

  lemma {:induction false} AgedGo(rows: set<Aged>, before: int, batch: nat, a: Aged)
    requires OneKeyEach(rows, AgedKey) && a in rows
    ensures a in Kept(rows, before, batch) <==> !AgedGoes(rows, before, batch, a)
  {
    AgedKeysAre(rows, before);
    TakenIfPicked(rows, Aging(rows, before), AgedKey, AgedKeys(rows, before), batch, a);
  }

  lemma {:induction false} AgedCount(rows: set<Aged>, before: int, batch: nat)
    requires OneKeyEach(rows, AgedKey)
    ensures |Oldest(AgedKeys(rows, before), batch)| == |set a | a in rows && AgedGoes(rows, before, batch, a)|
  {
    AgedKeysAre(rows, before);
    CountIs(rows, (set a | a in rows && AgedGoes(rows, before, batch, a)), Aging(rows, before), AgedKey, AgedKeys(rows, before), batch);
  }

  // A whole call.

  /** Runs go by the ids of their batch, and everything that is theirs goes by the same ids. */
  lemma {:induction false} RunGone(c: Config, t: Tables, now: int, runId: Uuid)
    requires HasRun(t, runId)
    ensures HasRun(Cleaned(c, t, now), runId) <==> runId !in Oldest(RunKeys(c, BeforeRuns(c, t, now), now), c.batch)
  {
    var b, after := BeforeRuns(c, t, now), Cleaned(c, t, now);
    BeforeRunsAre(c, t, now);
    var r :| r in t.runs && r.id == runId;
    RunAfter(t, Oldest(TailKeys(c, t, now), c.batch), r);
    var x := WithoutTail(r, Oldest(TailKeys(c, t, now), c.batch));
    assert x in b.runs && x.id == runId;
    if runId !in Oldest(RunKeys(c, b, now), c.batch) { assert x in after.runs; }
  }

  predicate Resolved(t: Tables, runId: Option<Uuid>) {
    runId.Some? ==> HasRun(t, runId.value)
  }

  /** A notification goes if it is overdue and its turn comes; else it stays, and loses its run if that has gone. */
  lemma {:induction false} NoteFate(c: Config, t: Tables, now: int, n: NoteRow)
    requires UniqueKeys(t) && n in t.notes && Resolved(t, n.runId)
    ensures var after := Cleaned(c, t, now);
            if NoteGoes(c, t, now, n) then forall m :: m in after.notes ==> m.id != n.id
            else (if Resolved(after, n.runId) then n else n.(runId := None)) in after.notes
  {
    var b, after := BeforeRuns(c, t, now), Cleaned(c, t, now);
    var ids := Oldest(RunKeys(c, b, now), c.batch);
    BeforeRunsAre(c, t, now);
    NotesGo(c, t, now, n);
    if n.runId.Some? { RunGone(c, t, now, n.runId.value); }
    if NoteGoes(c, t, now, n) {
      forall m | m in after.notes ensures m.id != n.id {
        var o :| o in b.notes && m == Unlinked(o, ids);
        assert o in t.notes;
      }
    } else {
      assert n in b.notes && Unlinked(n, ids) in after.notes;
    }
  }

  /** An event goes if it is old and its turn comes, or if its run has gone. */
  lemma {:induction false} EventFate(c: Config, t: Tables, now: int, e: EventData)
    requires UniqueKeys(t) && e in t.events && HasRun(t, e.runId)
    ensures e in Cleaned(c, t, now).events <==> !EventGoes(c, t, now, e) && HasRun(Cleaned(c, t, now), e.runId)
  {
    BeforeRunsAre(c, t, now);
    EventsGo(c, t, now, e);
    RunGone(c, t, now, e.runId);
  }

  /** A run that stays is as it was, but for its log tail, which goes if it is old and its turn comes. */
  lemma {:induction false} TailFate(c: Config, t: Tables, now: int, r: RunData, x: RunData)
    requires UniqueKeys(t) && r in t.runs && x in Cleaned(c, t, now).runs && x.id == r.id
    ensures x == if TailGoes(c, t, now, r) then r.(hasTail := false) else r
  {
    BeforeRunsAre(c, t, now);
    TailsGo(c, t, now, r);
    var o :| o in t.runs && x == WithoutTail(o, Oldest(TailKeys(c, t, now), c.batch));
  }

  /** A binding stays with its run, as it was, unless it is a stale placeholder whose turn comes. */
  lemma {:induction false} BindingFate(c: Config, t: Tables, now: int, b: BindingData)
    requires UniqueKeys(t) && b in t.bindings && HasRun(t, b.runId)
    ensures var after := Cleaned(c, t, now);
            if HasRun(after, b.runId)
            then (if PlaceholderGoes(c, t, now, b) then b.(state := Closed, invalidated := true) else b) in after.bindings
            else forall x :: x in after.bindings ==> x.id != b.id
  {
    var before, after := BeforeRuns(c, t, now), Cleaned(c, t, now);
    var ids := Oldest(PlaceholderKeys(c, t, now), c.batch);
    BeforeRunsAre(c, t, now);
    PlaceholdersGo(c, t, now, b);
    RunGone(c, t, now, b.runId);
    assert ExpiredIn(b, ids) in before.bindings;
    if !HasRun(after, b.runId) {
      forall x | x in after.bindings ensures x.id != b.id {
        var o :| o in t.bindings && x == ExpiredIn(o, ids);
      }
    }
  }

  /** Pushes and attempts when the turn of the runs comes. */
  lemma {:induction false} PushesBeforeRuns(c: Config, t: Tables, now: int)
    ensures var b, ids := BeforeRuns(c, t, now), Oldest(PushKeys(c, t, now), c.batch);
            && b.pushes == (set p | p in t.pushes && p.id !in ids)
            && b.attempts == set a | a in t.attempts && a.id !in Oldest(AttemptKeys(c, t, now), c.batch) && a.push !in ids
  {
    var t3 := AfterTails(c, AfterEvents(c, AfterNotes(c, t, now), now), now);
    var t4 := AfterPlaceholders(c, t3, now);
    assert AttemptKeys(c, t4, now) == AttemptKeys(c, t, now);
    assert PushKeys(c, AfterAttempts(c, t4, now), now) == PushKeys(c, t, now);
  }

  /** A push goes if it is closed and old and its turn comes, or if its run has gone. */
  lemma {:induction false} PushFate(c: Config, t: Tables, now: int, p: PushData)
    requires UniquePushes(t) && p in t.pushes && Resolved(t, p.runId)
    ensures p in Cleaned(c, t, now).pushes <==> !PushGoes(c, t, now, p) && Resolved(Cleaned(c, t, now), p.runId)
  {
    PushesBeforeRuns(c, t, now);
    PushesGo(c, t, now, p);
    if p.runId.Some? { RunGone(c, t, now, p.runId.value); }
  }

  /** An attempt goes if it is old and its turn comes, or with its push. */
  lemma {:induction false} AttemptFate(c: Config, t: Tables, now: int, a: AttemptData)
    requires UniquePushes(t) && a in t.attempts && HasPush(t, a.push)
    ensures a in Cleaned(c, t, now).attempts <==> !AttemptGoes(c, t, now, a) && HasPush(Cleaned(c, t, now), a.push)
  {
    var b, after := BeforeRuns(c, t, now), Cleaned(c, t, now);
    var ids := Oldest(RunKeys(c, b, now), c.batch);
    PushesBeforeRuns(c, t, now);
    AttemptsGo(c, t, now, a);
    var p :| p in t.pushes && p.id == a.push;
    assert HasPush(after, a.push) <==> p in after.pushes;
    assert p in b.pushes ==> (a.push in PushIds(b, ids) <==> PushOf(p, ids));
  }

  /** Pairing sessions go when they are old enough and their turn comes. */
  lemma {:induction false} PairingFate(c: Config, t: Tables, now: int, a: Aged)
    requires OneKeyEach(t.pairings, AgedKey) && a in t.pairings
    ensures a in Cleaned(c, t, now).pairings <==> !AgedGoes(t.pairings, now - c.pairingAge, c.batch, a)
  {
    AgedGo(t.pairings, PairingCutoff(c, now), c.batch, a);
  }

  /** So do audit logs. */
  lemma {:induction false} AuditFate(c: Config, t: Tables, now: int, a: Aged)
    requires OneKeyEach(t.audits, AgedKey) && a in t.audits
    ensures a in Cleaned(c, t, now).audits <==> !AgedGoes(t.audits, now - c.auditAge, c.batch, a)
  {
    AgedGo(t.audits, AuditCutoff(c, now), c.batch, a);
  }

  /** Challenges go as soon as they have expired. */
  lemma {:induction false} ChallengeFate(c: Config, t: Tables, now: int, a: Aged)
    requires OneKeyEach(t.challenges, AgedKey) && a in t.challenges
    ensures a in Cleaned(c, t, now).challenges <==> !AgedGoes(t.challenges, now + 1, c.batch, a)
  {
    AgedGo(t.challenges, now + 1, c.batch, a);
  }

  /** Expired rate buckets and unused quota locks go all at once. */
  lemma {:induction false} AbuseStateFate(c: Config, t: Tables, now: int, a: Aged)
    ensures a in Cleaned(c, t, now).buckets <==> a in t.buckets && a.time > now
    ensures a in Cleaned(c, t, now).locks <==> a in t.locks && a.time >= now - c.lockAge
  {
  }

  // What is reported.

  function RunKey(r: RunData): Key {
    Key(if r.endedAt.Some? then r.endedAt.value else 0, r.id)
  }

  /** Runs that ended long enough ago and have no activity that a push could still be delivered to. */
  function OldRuns(c: Config, t: Tables, now: int): set<RunData> {
    set r | r in t.runs && r.status in {SUCCEEDED, FAILED, CANCELLED, LOST} && r.endedAt.Some? && r.endedAt.value < now - c.runAge
            && forall b :: b in t.bindings && b.runId == r.id ==> b.invalidated || b.state == Closed
  }

  ghost predicate RunGoes(c: Config, t: Tables, now: int, r: RunData) {
    IsTaken(OldRuns(c, t, now), RunKey, c.batch, r)
  }

  lemma {:induction false} OldRunsAre(c: Config, t: Tables, now: int, r: RunData)
    ensures r in OldRuns(c, t, now) <==> r in t.runs && OldRun(c, t, r, now)
  {
    forall b | b in t.bindings ensures IsDeliverable(b) <==> !(b.invalidated || b.state == Closed) {
      assert b.state.Active? || b.state.Stale? || b.state.Closed?;
    }
  }

  lemma {:induction false} RunKeysAre(c: Config, t: Tables, now: int)
    ensures IsImage(RunKeys(c, t, now), OldRuns(c, t, now), RunKey)
  {
    forall k ensures k in RunKeys(c, t, now) <==> exists r :: r in OldRuns(c, t, now) && RunKey(r) == k {
      if k in RunKeys(c, t, now) {
        var r :| r in t.runs && OldRun(c, t, r, now) && k == RunKey(r);
        OldRunsAre(c, t, now, r);
      }
      if r :| r in OldRuns(c, t, now) && RunKey(r) == k { OldRunsAre(c, t, now, r); }
    }
  }

  lemma {:induction false} CountIs<T(!new)>(rows: set<T>, gone: set<T>, eligible: set<T>, key: T -> Key, keys: set<Key>, batch: nat)
    requires eligible <= rows && OneKeyEach(rows, key) && IsImage(keys, eligible, key)
    requires forall x :: x in gone <==> x in rows && IsTaken(eligible, key, batch, x)
    ensures |Oldest(keys, batch)| == |gone|
  {
    var kept := set x | x in rows && key(x).id !in Oldest(keys, batch);
    forall x | x in rows ensures key(x).id in Oldest(keys, batch) <==> IsTaken(eligible, key, batch, x) {
      TakenIfPicked(rows, eligible, key, keys, batch, x);
    }
    DeletionTakesOldest(rows, kept, eligible, key, keys, batch);
    assert rows - kept == gone;
  }

  lemma {:induction false} NotesCount(c: Config, t: Tables, now: int)
    requires UniqueKeys(t)
    ensures |Oldest(NoteKeys(c, t, now), c.batch)| == |set n | n in t.notes && NoteGoes(c, t, now, n)|
  {
    NoteKeysAre(c, t, now);
    assert Overdue(c, t, now) == OldNotes(c, t, now);
    CountIs(t.notes, (set n | n in t.notes && NoteGoes(c, t, now, n)), Overdue(c, t, now), NoteKey, NoteKeys(c, t, now), c.batch);
  }

  lemma {:induction false} EventsCount(c: Config, t: Tables, now: int)
    requires UniqueKeys(t)
    ensures |Oldest(EventKeys(c, t, now), c.batch)| == |set e | e in t.events && EventGoes(c, t, now, e)|
  {
    EventKeysAre(c, t, now);
    CountIs(t.events, (set e | e in t.events && EventGoes(c, t, now, e)), OldEvents(c, t, now), EventKey, EventKeys(c, t, now), c.batch);
  }

  lemma {:induction false} TailsCount(c: Config, t: Tables, now: int)
    requires UniqueKeys(t)
    ensures |Oldest(TailKeys(c, t, now), c.batch)| == |set r | r in t.runs && TailGoes(c, t, now, r)|
  {
    TailKeysAre(c, t, now);
    CountIs(t.runs, (set r | r in t.runs && TailGoes(c, t, now, r)), OldTails(c, t, now), TailKey, TailKeys(c, t, now), c.batch);
  }

  lemma {:induction false} PlaceholdersCount(c: Config, t: Tables, now: int)
    requires UniqueKeys(t)
    ensures |Oldest(PlaceholderKeys(c, t, now), c.batch)| == |set b | b in t.bindings && PlaceholderGoes(c, t, now, b)|
  {
    PlaceholderKeysAre(c, t, now);
    CountIs(t.bindings, (set b | b in t.bindings && PlaceholderGoes(c, t, now, b)), StalePlaceholders(c, t, now), BindingKey,
            PlaceholderKeys(c, t, now), c.batch);
  }

  lemma {:induction false} RunsCount(c: Config, t: Tables, now: int)
    requires UniqueKeys(t)
    ensures |Oldest(RunKeys(c, t, now), c.batch)| == |set r | r in t.runs && RunGoes(c, t, now, r)|
  {
    RunKeysAre(c, t, now);
    CountIs(t.runs, (set r | r in t.runs && RunGoes(c, t, now, r)), OldRuns(c, t, now), RunKey, RunKeys(c, t, now), c.batch);
  }

  lemma {:induction false} AttemptsCount(c: Config, t: Tables, now: int)
    requires UniquePushes(t)
    ensures |Oldest(AttemptKeys(c, t, now), c.batch)| == |set a | a in t.attempts && AttemptGoes(c, t, now, a)|
  {
    AttemptKeysAre(c, t, now);
    assert PastAttempts(c, t, now) == OldAttempts(c, t, now);
    CountIs(t.attempts, (set a | a in t.attempts && AttemptGoes(c, t, now, a)), PastAttempts(c, t, now), AttemptKey, AttemptKeys(c, t, now), c.batch);
  }

  lemma {:induction false} PushesCount(c: Config, t: Tables, now: int)
    requires UniquePushes(t)
    ensures |Oldest(PushKeys(c, t, now), c.batch)| == |set p | p in t.pushes && PushGoes(c, t, now, p)|
  {
    PushKeysAre(c, t, now);
    assert ClosedPushes(c, t, now) == OldPushes(c, t, now);
    CountIs(t.pushes, (set p | p in t.pushes && PushGoes(c, t, now, p)), ClosedPushes(c, t, now), PushKey, PushKeys(c, t, now), c.batch);
  }

  ghost predicate UniqueAged(t: Tables) {
    OneKeyEach(t.pairings, AgedKey) && OneKeyEach(t.audits, AgedKey) && OneKeyEach(t.challenges, AgedKey)
  }

  /** The number of rows of a class that go, or change, in its turn. */
  ghost function Gone(c: Config, class0: Class, t: Tables, now: int): nat {
    match class0
    case Notes => |set n | n in t.notes && NoteGoes(c, t, now, n)|
    case Events => |set e | e in t.events && EventGoes(c, t, now, e)|
    case Tails => |set r | r in t.runs && TailGoes(c, t, now, r)|
    case Placeholders => |set b | b in t.bindings && PlaceholderGoes(c, t, now, b)|
    case Attempts => |set a | a in t.attempts && AttemptGoes(c, t, now, a)|
    case Pushes => |set p | p in t.pushes && PushGoes(c, t, now, p)|
    case Pairings => |set a | a in t.pairings && AgedGoes(t.pairings, now - c.pairingAge, c.batch, a)|
    case Audits => |set a | a in t.audits && AgedGoes(t.audits, now - c.auditAge, c.batch, a)|
    case Challenges => |set a | a in t.challenges && AgedGoes(t.challenges, now + 1, c.batch, a)|
    case Runs => |set r | r in t.runs && RunGoes(c, t, now, r)|
    case Buckets => |set a | a in t.buckets && a.time <= now|
    case Locks => |set a | a in t.locks && a.time < now - c.lockAge|
  }

  /** Each class is reported with the number of its rows that go in its turn. */
  lemma {:induction false} CountTells(c: Config, class0: Class, t: Tables, now: int)
    requires UniqueKeys(t) && UniquePushes(t) && UniqueAged(t)
    ensures CountOf(c, class0, t, now) == Gone(c, class0, t, now)
  {
    match class0
    case Notes => NotesCount(c, t, now);
    case Events => EventsCount(c, t, now);
    case Tails => TailsCount(c, t, now);
    case Placeholders => PlaceholdersCount(c, t, now);
    case Attempts => AttemptsCount(c, t, now);
    case Pushes => PushesCount(c, t, now);
    case Pairings => AgedCount(t.pairings, PairingCutoff(c, now), c.batch);
    case Audits => AgedCount(t.audits, AuditCutoff(c, now), c.batch);
    case Challenges => AgedCount(t.challenges, now + 1, c.batch);
    case Runs => RunsCount(c, t, now);
    case Buckets => assert OldBuckets(t, now) == set a | a in t.buckets && a.time <= now;
    case Locks => assert OldLocks(c, t, now) == set a | a in t.locks && a.time < now - c.lockAge;
  }
}
