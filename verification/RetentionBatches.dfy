/**
 The batches that a cleanup deletes (server/app/retention.py: _limited_ids, _delete_ids),
 for any class of rows: the oldest rows that are old enough, as many as the batch holds.
 */
module RetentionBatches {
  import opened Retention
  import opened RetentionProgress
  import opened RetentionStore

  /** Of the rows that are old enough the oldest are gone, a full batch or all of them; every other row is kept. */
  ghost predicate TakesOldest<T(!new)>(rows: set<T>, kept: set<T>, eligible: set<T>, key: T -> Key, batch: nat) {
    && kept <= rows && rows - kept <= eligible
    && (forall x, y :: x in rows - kept && y in kept && y in eligible ==> Older(key(x), key(y)))
    && |rows - kept| == if |eligible| <= batch then |eligible| else batch
  }

  /** Rows have one key each, and no two the same id. */
  ghost predicate OneKeyEach<T(!new)>(rows: set<T>, key: T -> Key) {
    forall x, y :: x in rows && y in rows && key(x).id == key(y).id ==> x == y
  }

  ghost predicate IsImage<S(!new), T(!new)>(image: set<T>, rows: set<S>, f: S -> T) {
    forall t :: t in image <==> exists x :: x in rows && f(x) == t
  }

  lemma {:induction false} InjectiveImage<S(!new), T(!new)>(rows: set<S>, image: set<T>, f: S -> T)
    requires IsImage(image, rows, f)
    requires forall x, y :: x in rows && y in rows && f(x) == f(y) ==> x == y
    ensures |image| == |rows|
    decreases |rows|
  {
    if rows == {} {
      assert image == {};
    } else {
      var r :| r in rows;
      assert f(r) in image;
      forall t ensures t in image - {f(r)} <==> exists x :: x in rows - {r} && f(x) == t {
        if x :| x in rows && f(x) == t && t != f(r) {
          assert x in rows - {r};
        }
      }
      InjectiveImage(rows - {r}, image - {f(r)}, f);
    }
  }

  lemma {:induction false} PickedRow<T(!new)>(rows: set<T>, eligible: set<T>, key: T -> Key, keys: set<Key>, batch: nat, x: T)
    requires eligible <= rows && OneKeyEach(rows, key) && x in rows
    requires IsImage(keys, eligible, key)
    ensures key(x).id in Oldest(keys, batch) <==> x in eligible && key(x) in First(keys, batch)
  {
    if key(x).id in Oldest(keys, batch) {
      var k :| k in First(keys, batch) && k.id == key(x).id;
      var y :| y in eligible && key(y) == k;
      assert y == x;
    }
  }

  /** Deleting the rows whose ids are the first of a class takes the oldest. */
  lemma {:induction false} DeletionTakesOldest<T(!new)>(rows: set<T>, kept: set<T>, eligible: set<T>, key: T -> Key, keys: set<Key>, batch: nat)
    requires eligible <= rows && OneKeyEach(rows, key)
    requires IsImage(keys, eligible, key)
    requires forall x :: x in kept <==> x in rows && key(x).id !in Oldest(keys, batch)
    ensures TakesOldest(rows, kept, eligible, key, batch)
    ensures |Oldest(keys, batch)| == |rows - kept|
  {
    var gone, first := rows - kept, First(keys, batch);
    forall x | x in rows ensures x in gone <==> x in eligible && key(x) in first {
      PickedRow(rows, eligible, key, keys, batch, x);
    }
    forall k ensures k in first <==> exists x :: x in gone && key(x) == k {
      if k in first {
        var y :| y in eligible && key(y) == k;
        assert y in gone;
      }
    }
    InjectiveImage(gone, first, key);
    InjectiveImage(eligible, keys, key);
    FirstSize(keys, batch);
    forall k, l | k in first && l in first && k.id == l.id ensures k == l {
      var x, y :| x in gone && key(x) == k && y in gone && key(y) == l;
    }
    InjectiveImage(first, Oldest(keys, batch), (k: Key) => k.id);
    forall x, y | x in gone && y in kept && y in eligible ensures Older(key(x), key(y)) {
      assert key(y) in keys && key(y) !in first;
      FirstIsOldest(keys, batch, key(x), key(y));
    }
  }

  // The classes.

  function OldNotes(c: Config, t: Tables, now: int): set<NoteRow> {
    set n | n in t.notes && OldNote(c, t, n, now)
  }

  function OldAttempts(c: Config, t: Tables, now: int): set<AttemptData> {
    set a | a in t.attempts && OldAttempt(c, a, now)
  }

  function OldPushes(c: Config, t: Tables, now: int): set<PushData> {
    set p | p in t.pushes && OldPush(c, p, now)
  }

  function NoteKey(n: NoteRow): Key {
    Key(n.createdAt, n.id)
  }

  function AttemptKey(a: AttemptData): Key {
    Key(a.at, a.id)
  }

  function PushKey(p: PushData): Key {
    Key(p.updatedAt, p.id)
  }

  predicate UniquePushes(t: Tables) {
    && (forall a, b :: a in t.attempts && b in t.attempts && a.id == b.id ==> a == b)
    && (forall p, q :: p in t.pushes && q in t.pushes && p.id == q.id ==> p == q)
  }

  lemma {:induction false} NoteKeysAre(c: Config, t: Tables, now: int)
    ensures IsImage(NoteKeys(c, t, now), OldNotes(c, t, now), NoteKey)
  {
    forall k ensures k in NoteKeys(c, t, now) <==> exists n :: n in OldNotes(c, t, now) && NoteKey(n) == k {
      if k in NoteKeys(c, t, now) {
        var n :| n in t.notes && OldNote(c, t, n, now) && k == NoteKey(n);
        assert n in OldNotes(c, t, now);
      }
    }
  }

  lemma {:induction false} AttemptKeysAre(c: Config, t: Tables, now: int)
    ensures IsImage(AttemptKeys(c, t, now), OldAttempts(c, t, now), AttemptKey)
  {
    forall k ensures k in AttemptKeys(c, t, now) <==> exists a :: a in OldAttempts(c, t, now) && AttemptKey(a) == k {
      if k in AttemptKeys(c, t, now) {
        var a :| a in t.attempts && OldAttempt(c, a, now) && k == AttemptKey(a);
        assert a in OldAttempts(c, t, now);
      }
    }
  }

  lemma {:induction false} PushKeysAre(c: Config, t: Tables, now: int)
    ensures IsImage(PushKeys(c, t, now), OldPushes(c, t, now), PushKey)
  {
    forall k ensures k in PushKeys(c, t, now) <==> exists p :: p in OldPushes(c, t, now) && PushKey(p) == k {
      if k in PushKeys(c, t, now) {
        var p :| p in t.pushes && OldPush(c, p, now) && k == PushKey(p);
        assert p in OldPushes(c, t, now);
      }
    }
  }

  lemma {:induction false} AttemptsTakenFrom(rows: set<AttemptData>, eligible: set<AttemptData>, keys: set<Key>, batch: nat)
    requires eligible <= rows && IsImage(keys, eligible, AttemptKey) && forall a, b :: a in rows && b in rows && a.id == b.id ==> a == b
    ensures var kept := set a | a in rows && a.id !in Oldest(keys, batch);
            TakesOldest(rows, kept, eligible, AttemptKey, batch) && |Oldest(keys, batch)| == |rows - kept|
  {
    assert OneKeyEach(rows, AttemptKey);
    DeletionTakesOldest(rows, (set a | a in rows && a.id !in Oldest(keys, batch)), eligible, AttemptKey, keys, batch);
  }

  lemma {:induction false} PushesTakenFrom(rows: set<PushData>, eligible: set<PushData>, keys: set<Key>, batch: nat)
    requires eligible <= rows && IsImage(keys, eligible, PushKey) && forall a, b :: a in rows && b in rows && a.id == b.id ==> a == b
    ensures var kept := set p | p in rows && p.id !in Oldest(keys, batch);
            TakesOldest(rows, kept, eligible, PushKey, batch) && |Oldest(keys, batch)| == |rows - kept|
  {
    assert OneKeyEach(rows, PushKey);
    DeletionTakesOldest(rows, (set p | p in rows && p.id !in Oldest(keys, batch)), eligible, PushKey, keys, batch);
  }

  /**
   Of the expired notifications, and those too old, that belong to no active run, the
   oldest go; the workspaces to bump are those of the deleted rows.
   */
  lemma {:induction false} NotesTaken(c: Config, t: Tables, now: int)
    requires UniqueKeys(t)
    ensures var kept := AfterNotes(c, t, now).notes;
            && TakesOldest(t.notes, kept, OldNotes(c, t, now), NoteKey, c.batch)
            && CountOf(c, Notes, t, now) == |t.notes - kept|
            && OfNotes(t, Oldest(NoteKeys(c, t, now), c.batch)) == set n | n in t.notes - kept :: n.workspaceId
  {
    var keys := NoteKeys(c, t, now);
    NoteKeysAre(c, t, now);
    assert OneKeyEach(t.notes, NoteKey);
    DeletionTakesOldest(t.notes, AfterNotes(c, t, now).notes, OldNotes(c, t, now), NoteKey, keys, c.batch);
  }

  lemma {:induction false} AttemptsTaken(c: Config, t: Tables, now: int)
    requires UniquePushes(t)
    ensures var kept := AfterAttempts(c, t, now).attempts;
            && TakesOldest(t.attempts, kept, OldAttempts(c, t, now), AttemptKey, c.batch)
            && CountOf(c, Attempts, t, now) == |t.attempts - kept|
  {
    var keys := AttemptKeys(c, t, now);
    AttemptKeysAre(c, t, now);
    AttemptsTakenFrom(t.attempts, OldAttempts(c, t, now), keys, c.batch);
  }

  predicate Belongs(a: AttemptData, pushes: set<PushData>) {
    exists p :: p in pushes && p.id == a.push
  }

  /** Delivered, failed and cancelled pushes go with all of their attempts, and no other attempt goes. */
  lemma {:induction false} PushesTaken(c: Config, t: Tables, now: int)
    requires UniquePushes(t)
    ensures var after := AfterPushes(c, t, now);
            && TakesOldest(t.pushes, after.pushes, OldPushes(c, t, now), PushKey, c.batch)
            && CountOf(c, Pushes, t, now) == |t.pushes - after.pushes|
  {
    var keys := PushKeys(c, t, now);
    PushKeysAre(c, t, now);
    PushesTakenFrom(t.pushes, OldPushes(c, t, now), keys, c.batch);
  }

  lemma {:induction false} AttemptsGoWithPushes(c: Config, t: Tables, now: int, a: AttemptData)
    ensures a in AfterPushes(c, t, now).attempts <==> a in t.attempts && !Belongs(a, t.pushes - AfterPushes(c, t, now).pushes)
  {
    var keys := PushKeys(c, t, now);
    if a in t.attempts && a.push in Oldest(keys, c.batch) {
      var k := PickedIsKey(keys, c.batch, a.push);
      var p :| p in t.pushes && OldPush(c, p, now) && k == Key(p.updatedAt, p.id);
      assert p in t.pushes - AfterPushes(c, t, now).pushes;
    }
  }
}
