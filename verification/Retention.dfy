/**
 Retention (server/app/retention.py: cleanup_retention; server/app/abuse.py:
 cleanup_abuse_state): one call deletes one bounded batch of each class of old rows.
 Tables are sets of rows that carry their id; only the columns that decide about a row
 are modelled.
 */
module Retention {
  import opened Wrappers
  import opened Events
  import opened Sequences

  datatype NoteRow = NoteRow(id: nat, workspaceId: string, runId: Option<Uuid>, createdAt: int, expiresAt: Option<int>)

  datatype RunData = RunData(id: Uuid, workspaceId: string, status: Status, updatedAt: int, endedAt: Option<int>, hasTail: bool)

  datatype EventData = EventData(id: nat, runId: Uuid, receivedAt: int)

  datatype BindingState = Active | Stale | Closed

  datatype BindingData = BindingData(id: nat, runId: Uuid, placeholder: bool, state: BindingState, invalidated: bool, startedAt: int)

  datatype PushData = PushData(id: nat, runId: Option<Uuid>, pending: bool, updatedAt: int)

  datatype AttemptData = AttemptData(id: nat, push: nat, at: int)

  /** Rows that nothing refers to: pairing sessions, audit logs, deletion challenges, rate buckets, quota locks. */
  datatype Aged = Aged(id: nat, time: int)

  datatype Tables = Tables(notes: set<NoteRow>, runs: set<RunData>, events: set<EventData>, bindings: set<BindingData>,
                           pushes: set<PushData>, attempts: set<AttemptData>,
                           pairings: set<Aged>, audits: set<Aged>, challenges: set<Aged>, buckets: set<Aged>, locks: set<Aged>)

  datatype Config = Config(batch: nat, noteAge: nat, eventAge: nat, tailAge: nat, placeholderAge: nat, attemptAge: nat, pushAge: nat,
                           pairingAge: nat, auditAge: nat, runAge: nat, lockAge: nat)

  // The first rows of a class.

  datatype Key = Key(time: int, id: nat)

  predicate Older(a: Key, b: Key) {
    a.time < b.time || (a.time == b.time && a.id < b.id)
  }

  /** `ORDER BY time, id LIMIT batch` */
  function First(keys: set<Key>, batch: nat): set<Key> {
    set k | k in keys && |set x | x in keys && Older(x, k)| < batch
  }

  function Oldest(keys: set<Key>, batch: nat): set<nat> {
    set k | k in First(keys, batch) :: k.id
  }

  // Which rows a class picks.

  predicate IsActive(t: Tables, runId: Uuid) {
    exists r :: r in t.runs && r.id == runId && !IsTerminal(r.status)
  }

  predicate OldNote(c: Config, t: Tables, n: NoteRow, now: int) {
    && ((n.expiresAt.Some? && n.expiresAt.value <= now) || n.createdAt < now - c.noteAge)
    && (n.runId.Some? ==> !IsActive(t, n.runId.value))
  }

  predicate OldEvent(c: Config, t: Tables, e: EventData, now: int) {
    && e.receivedAt < now - c.eventAge
    && exists r :: r in t.runs && r.id == e.runId && IsTerminal(r.status)
  }

  predicate OldTail(c: Config, r: RunData, now: int) {
    r.updatedAt < now - c.tailAge && r.hasTail
  }

  predicate StalePlaceholder(c: Config, b: BindingData, now: int) {
    b.placeholder && b.state == Active && b.startedAt < now - c.placeholderAge
  }

  predicate OldAttempt(c: Config, a: AttemptData, now: int) {
    a.at < now - c.attemptAge
  }

  predicate OldPush(c: Config, p: PushData, now: int) {
    !p.pending && p.updatedAt < now - c.pushAge
  }

  /** A binding that a push could still be delivered to. */
  predicate IsDeliverable(b: BindingData) {
    (b.state == Active || b.state == Stale) && !b.invalidated
  }

  predicate HasDeliverable(t: Tables, runId: Uuid) {
    exists b :: b in t.bindings && b.runId == runId && IsDeliverable(b)
  }

  predicate OldRun(c: Config, t: Tables, r: RunData, now: int) {
    && IsTerminal(r.status) && r.endedAt.Some? && r.endedAt.value < now - c.runAge
    && !HasDeliverable(t, r.id)
  }

  function NoteKeys(c: Config, t: Tables, now: int): set<Key> {
    set n | n in t.notes && OldNote(c, t, n, now) :: Key(n.createdAt, n.id)
  }

  function EventKeys(c: Config, t: Tables, now: int): set<Key> {
    set e | e in t.events && OldEvent(c, t, e, now) :: Key(e.receivedAt, e.id)
  }

  function TailKeys(c: Config, t: Tables, now: int): set<Key> {
    set r | r in t.runs && OldTail(c, r, now) :: Key(r.updatedAt, r.id)
  }

  function PlaceholderKeys(c: Config, t: Tables, now: int): set<Key> {
    set b | b in t.bindings && StalePlaceholder(c, b, now) :: Key(b.startedAt, b.id)
  }

  function AttemptKeys(c: Config, t: Tables, now: int): set<Key> {
    set a | a in t.attempts && OldAttempt(c, a, now) :: Key(a.at, a.id)
  }

  function PushKeys(c: Config, t: Tables, now: int): set<Key> {
    set p | p in t.pushes && OldPush(c, p, now) :: Key(p.updatedAt, p.id)
  }

  function RunKeys(c: Config, t: Tables, now: int): set<Key> {
    set r | r in t.runs && OldRun(c, t, r, now) :: Key(r.endedAt.value, r.id)
  }

  function AgedKeys(rows: set<Aged>, before: int): set<Key> {
    set a | a in rows && a.time < before :: Key(a.time, a.id)
  }

  // What each class does.

  function NotesDeleted(t: Tables, ids: set<nat>): Tables {
    t.(notes := set n | n in t.notes && n.id !in ids)
  }

  function EventsDeleted(t: Tables, ids: set<nat>): Tables {
    t.(events := set e | e in t.events && e.id !in ids)
  }

  function WithoutTail(r: RunData, ids: set<nat>): RunData {
    if r.id in ids then r.(hasTail := false) else r
  }

  function TailsCleared(t: Tables, ids: set<nat>): Tables {
    t.(runs := set r | r in t.runs :: WithoutTail(r, ids))
  }

  function ExpiredIn(b: BindingData, ids: set<nat>): BindingData {
    if b.id in ids then b.(state := Closed, invalidated := true) else b
  }

  function PlaceholdersExpired(t: Tables, ids: set<nat>): Tables {
    t.(bindings := set b | b in t.bindings :: ExpiredIn(b, ids))
  }

  function AttemptsDeleted(t: Tables, ids: set<nat>): Tables {
    t.(attempts := set a | a in t.attempts && a.id !in ids)
  }

  function PushesDeleted(t: Tables, ids: set<nat>): Tables {
    t.(attempts := (set a | a in t.attempts && a.push !in ids),
       pushes := (set p | p in t.pushes && p.id !in ids))
  }

  function Unlinked(n: NoteRow, runs: set<nat>): NoteRow {
    if n.runId.Some? && n.runId.value in runs then n.(runId := None) else n
  }

  predicate PushOf(p: PushData, runs: set<nat>) {
    p.runId.Some? && p.runId.value in runs
  }

  /** The pushes of some runs, by id. */
  function PushIds(t: Tables, runs: set<nat>): set<nat> {
    set p | p in t.pushes && PushOf(p, runs) :: p.id
  }

  function RunsDeleted(t: Tables, ids: set<nat>): Tables {
    t.(attempts := (set a | a in t.attempts && a.push !in PushIds(t, ids)),
       pushes := (set p | p in t.pushes && !PushOf(p, ids)),
       events := (set e | e in t.events && e.runId !in ids),
       bindings := (set b | b in t.bindings && b.runId !in ids),
       notes := (set n | n in t.notes :: Unlinked(n, ids)),
       runs := (set r | r in t.runs && r.id !in ids))
  }

  function Without(rows: set<Aged>, ids: set<nat>): set<Aged> {
    set a | a in rows && a.id !in ids
  }

  function PairingCutoff(c: Config, now: int): int {
    now - c.pairingAge
  }

  function AuditCutoff(c: Config, now: int): int {
    now - c.auditAge
  }

  function Kept(rows: set<Aged>, before: int, batch: nat): set<Aged> {
    Without(rows, Oldest(AgedKeys(rows, before), batch))
  }

  /** The tables after each of the classes of a call. */
  function AfterNotes(c: Config, t: Tables, now: int): Tables {
    NotesDeleted(t, Oldest(NoteKeys(c, t, now), c.batch))
  }

  function AfterEvents(c: Config, t: Tables, now: int): Tables {
    EventsDeleted(t, Oldest(EventKeys(c, t, now), c.batch))
  }

  function AfterTails(c: Config, t: Tables, now: int): Tables {
    TailsCleared(t, Oldest(TailKeys(c, t, now), c.batch))
  }

  function AfterPlaceholders(c: Config, t: Tables, now: int): Tables {
    PlaceholdersExpired(t, Oldest(PlaceholderKeys(c, t, now), c.batch))
  }

  function AfterAttempts(c: Config, t: Tables, now: int): Tables {
    AttemptsDeleted(t, Oldest(AttemptKeys(c, t, now), c.batch))
  }

  function AfterPushes(c: Config, t: Tables, now: int): Tables {
    PushesDeleted(t, Oldest(PushKeys(c, t, now), c.batch))
  }

  function AfterPairings(c: Config, t: Tables, now: int): Tables {
    t.(pairings := Kept(t.pairings, PairingCutoff(c, now), c.batch))
  }

  function AfterAudits(c: Config, t: Tables, now: int): Tables {
    t.(audits := Kept(t.audits, AuditCutoff(c, now), c.batch))
  }

  function AfterChallenges(c: Config, t: Tables, now: int): Tables {
    t.(challenges := Kept(t.challenges, now + 1, c.batch))
  }

  function AfterRuns(c: Config, t: Tables, now: int): Tables {
    RunsDeleted(t, Oldest(RunKeys(c, t, now), c.batch))
  }

  /** The last two classes have no limit. */
  function AfterBuckets(t: Tables, now: int): Tables {
    t.(buckets := set a | a in t.buckets && a.time > now)
  }

  function AfterLocks(c: Config, t: Tables, now: int): Tables {
    t.(locks := set a | a in t.locks && a.time >= now - c.lockAge)
  }

  /** The tables when the turn of the runs comes. */
  function BeforeRuns(c: Config, t: Tables, now: int): Tables {
    var t1 := AfterNotes(c, t, now);
    var t2 := AfterEvents(c, t1, now);
    var t3 := AfterTails(c, t2, now);
    var t4 := AfterPlaceholders(c, t3, now);
    var t5 := AfterAttempts(c, t4, now);
    var t6 := AfterPushes(c, t5, now);
    AfterChallenges(c, AfterAudits(c, AfterPairings(c, t6, now), now), now)
  }

  /** `cleanup_retention` */
  function Cleaned(c: Config, t: Tables, now: int): Tables {
    AfterLocks(c, AfterBuckets(AfterRuns(c, BeforeRuns(c, t, now), now), now), now)
  }

  // Picking.

  lemma {:induction false} NewestExists(keys: set<Key>) returns (last: Key)
    requires keys != {}
    ensures last in keys && forall k :: k in keys && k != last ==> Older(k, last)
    decreases |keys|
  {
    var k :| k in keys;
    var others := keys - {k};
    if others == {} {
      last := k;
      assert keys == {k};
    } else {
      var rest := NewestExists(others);
      last := if Older(rest, k) then k else rest;
      forall x | x in keys && x != last ensures Older(x, last) {
        assert x == k || x in others;
      }
    }
  }

  lemma {:induction false} OlderThanRest(keys: set<Key>, last: Key, k: Key)
    requires last in keys && k in keys && forall x :: x in keys && x != last ==> Older(x, last)
    ensures (set x | x in keys && Older(x, k)) == if k == last then keys - {last} else set x | x in keys - {last} && Older(x, k)
  {
  }

  lemma {:induction false} FirstOfRest(keys: set<Key>, last: Key, batch: nat)
    requires last in keys && forall x :: x in keys && x != last ==> Older(x, last)
    ensures First(keys, batch) == First(keys - {last}, batch) + if |keys - {last}| < batch then {last} else {}
  {
    var rest := keys - {last};
    forall k ensures k in First(keys, batch) <==> k in First(rest, batch) || (k == last && |rest| < batch) {
      if k in keys { OlderThanRest(keys, last, k); }
    }
  }

  /** A batch is full, or it is all there is. */
  lemma {:induction false} FirstSize(keys: set<Key>, batch: nat)
    ensures |First(keys, batch)| == if |keys| <= batch then |keys| else batch
    decreases |keys|
  {
    if keys == {} {
      assert First(keys, batch) == {};
    } else {
      var last := NewestExists(keys);
      FirstOfRest(keys, last, batch);
      FirstSize(keys - {last}, batch);
      assert last !in First(keys - {last}, batch);
    }
  }

  /** What is left out is newer than what is picked. */
  lemma {:induction false} FirstIsOldest(keys: set<Key>, batch: nat, a: Key, b: Key)
    requires a in First(keys, batch) && b in keys && b !in First(keys, batch)
    ensures Older(a, b)
  {
    if !Older(a, b) {
      var olderB, olderA := set x | x in keys && Older(x, b), set x | x in keys && Older(x, a);
      assert olderB <= olderA;
      SubsetSize(olderB, olderA);
    }
  }

  /** Something is picked if there is anything. */
  lemma {:induction false} OldestPicks(keys: set<Key>, batch: nat)
    requires batch > 0
    ensures Oldest(keys, batch) == {} <==> keys == {}
  {
    FirstSize(keys, batch);
    if keys != {} {
      var k :| k in First(keys, batch);
      assert k.id in Oldest(keys, batch);
    }
  }

  // Keys between the tables.

  predicate HasRun(t: Tables, runId: Uuid) {
    exists r :: r in t.runs && r.id == runId
  }

  predicate HasPush(t: Tables, push: nat) {
    exists p :: p in t.pushes && p.id == push
  }

  /** Every foreign key is resolved. */
  predicate Linked(t: Tables) {
    && (forall e :: e in t.events ==> HasRun(t, e.runId))
    && (forall b :: b in t.bindings ==> HasRun(t, b.runId))
    && (forall n :: n in t.notes && n.runId.Some? ==> HasRun(t, n.runId.value))
    && (forall p :: p in t.pushes && p.runId.Some? ==> HasRun(t, p.runId.value))
    && (forall a :: a in t.attempts ==> HasPush(t, a.push))
  }

  lemma {:induction false} TailsKeepLinks(t: Tables, ids: set<nat>)
    requires Linked(t)
    ensures Linked(TailsCleared(t, ids))
  {
    var after := TailsCleared(t, ids);
    forall runId | HasRun(t, runId) ensures HasRun(after, runId) {
      var r :| r in t.runs && r.id == runId;
      assert WithoutTail(r, ids) in after.runs;
    }
  }

  lemma {:induction false} PlaceholdersKeepLinks(t: Tables, ids: set<nat>)
    requires Linked(t)
    ensures Linked(PlaceholdersExpired(t, ids))
  {
    var after := PlaceholdersExpired(t, ids);
    forall b | b in after.bindings ensures HasRun(after, b.runId) {
      var o :| o in t.bindings && b == ExpiredIn(o, ids);
      var r :| r in t.runs && r.id == o.runId;
      assert r in after.runs;
    }
  }

  lemma {:induction false} PushesKeepLinks(t: Tables, ids: set<nat>)
    requires Linked(t)
    ensures Linked(PushesDeleted(t, ids))
  {
    var after := PushesDeleted(t, ids);
    forall a | a in after.attempts ensures HasPush(after, a.push) {
      var p :| p in t.pushes && p.id == a.push;
      assert p in after.pushes;
    }
  }

  lemma {:induction false} RunsKeepLinks(t: Tables, ids: set<nat>)
    requires Linked(t)
    ensures Linked(RunsDeleted(t, ids))
  {
    var after := RunsDeleted(t, ids);
    forall runId | HasRun(t, runId) && runId !in ids ensures HasRun(after, runId) {
      var r :| r in t.runs && r.id == runId;
      assert r in after.runs;
    }
    forall n | n in after.notes && n.runId.Some? ensures HasRun(after, n.runId.value) {
      var o :| o in t.notes && n == Unlinked(o, ids);
    }
    forall a | a in after.attempts ensures HasPush(after, a.push) {
      var p :| p in t.pushes && p.id == a.push;
      assert PushOf(p, ids) ==> p.id in PushIds(t, ids);
      assert p in after.pushes;
    }
  }

  /** A cleanup leaves every foreign key resolved. */
  lemma {:induction false} CleanedKeepsLinks(c: Config, t: Tables, now: int)
    requires Linked(t)
    ensures Linked(Cleaned(c, t, now))
  {
    var t1 := AfterNotes(c, t, now);
    var t2 := AfterEvents(c, t1, now);
    var t3 := AfterTails(c, t2, now);
    var t4 := AfterPlaceholders(c, t3, now);
    var t5 := AfterAttempts(c, t4, now);
    var t6 := AfterPushes(c, t5, now);
    assert Linked(t1) && Linked(t2);
    TailsKeepLinks(t2, Oldest(TailKeys(c, t2, now), c.batch));
    PlaceholdersKeepLinks(t3, Oldest(PlaceholderKeys(c, t3, now), c.batch));
    assert Linked(t5);
    PushesKeepLinks(t5, Oldest(PushKeys(c, t5, now), c.batch));
    assert Linked(t6);
    var b := BeforeRuns(c, t, now);
    assert Linked(b);
    RunsKeepLinks(b, Oldest(RunKeys(c, b, now), c.batch));
  }

  // What is never deleted.

  predicate UniqueKeys(t: Tables) {
    && (forall a, b :: a in t.runs && b in t.runs && a.id == b.id ==> a == b)
    && (forall a, b :: a in t.notes && b in t.notes && a.id == b.id ==> a == b)
    && (forall a, b :: a in t.events && b in t.events && a.id == b.id ==> a == b)
    && (forall a, b :: a in t.bindings && b in t.bindings && a.id == b.id ==> a == b)
  }

  lemma {:induction false} PickedIsKey(keys: set<Key>, batch: nat, id: nat) returns (k: Key)
    requires id in Oldest(keys, batch)
    ensures k in keys && k.id == id
  {
    k :| k in First(keys, batch) && k.id == id;
  }

  /** Equal but for the log tail. */
  predicate SameRun(a: RunData, b: RunData) {
    a.id == b.id && a.workspaceId == b.workspaceId && a.status == b.status && a.updatedAt == b.updatedAt && a.endedAt == b.endedAt
  }

  predicate KeepsRun(t: Tables, r: RunData) {
    exists x :: x in t.runs && SameRun(x, r)
  }

  /** The events, notifications and bindings of a run. */
  predicate KeepsRows(before: Tables, after: Tables, runId: Uuid) {
    && (forall e :: e in before.events && e.runId == runId ==> e in after.events)
    && (forall n :: n in before.notes && n.runId == Some(runId) ==> n in after.notes)
  }

  lemma {:induction false} PickedNoteIsOld(c: Config, t: Tables, now: int, n: NoteRow)
    requires UniqueKeys(t) && n in t.notes && n.id in Oldest(NoteKeys(c, t, now), c.batch)
    ensures OldNote(c, t, n, now)
  {
    var k := PickedIsKey(NoteKeys(c, t, now), c.batch, n.id);
    var o :| o in t.notes && OldNote(c, t, o, now) && k == Key(o.createdAt, o.id);
  }

  lemma {:induction false} PickedEventIsOld(c: Config, t: Tables, now: int, e: EventData)
    requires UniqueKeys(t) && e in t.events && e.id in Oldest(EventKeys(c, t, now), c.batch)
    ensures OldEvent(c, t, e, now)
  {
    var k := PickedIsKey(EventKeys(c, t, now), c.batch, e.id);
    var o :| o in t.events && OldEvent(c, t, o, now) && k == Key(o.receivedAt, o.id);
  }

  lemma {:induction false} PickedPlaceholderIsStale(c: Config, t: Tables, now: int, b: BindingData)
    requires UniqueKeys(t) && b in t.bindings && b.id in Oldest(PlaceholderKeys(c, t, now), c.batch)
    ensures StalePlaceholder(c, b, now)
  {
    var k := PickedIsKey(PlaceholderKeys(c, t, now), c.batch, b.id);
    var o :| o in t.bindings && StalePlaceholder(c, o, now) && k == Key(o.startedAt, o.id);
  }

  /** Each table when the turn of the runs comes: only its own class has touched it, or none. */
  predicate OwnClassOnly(c: Config, t: Tables, b: Tables, now: int) {
    && b.notes == AfterNotes(c, t, now).notes
    && b.events == AfterEvents(c, t, now).events
    && b.runs == AfterTails(c, t, now).runs
    && b.bindings == AfterPlaceholders(c, t, now).bindings
  }

  lemma {:induction false} BeforeRunsAre(c: Config, t: Tables, now: int)
    ensures OwnClassOnly(c, t, BeforeRuns(c, t, now), now)
  {
    var t1 := AfterNotes(c, t, now);
    var t2 := AfterEvents(c, t1, now);
    var t3 := AfterTails(c, t2, now);
    assert EventKeys(c, t1, now) == EventKeys(c, t, now);
    assert TailKeys(c, t2, now) == TailKeys(c, t, now);
    assert PlaceholderKeys(c, t3, now) == PlaceholderKeys(c, t, now);
  }

  /** A run when the turn of the runs comes is one of the runs from before. */
  lemma {:induction false} RunBefore(t: Tables, ids: set<nat>, x: RunData) returns (r: RunData)
    requires x in TailsCleared(t, ids).runs
    ensures r in t.runs && SameRun(x, r)
  {
    r :| r in t.runs && x == WithoutTail(r, ids);
  }

  lemma {:induction false} RunAfter(t: Tables, ids: set<nat>, r: RunData)
    requires r in t.runs
    ensures WithoutTail(r, ids) in TailsCleared(t, ids).runs && SameRun(WithoutTail(r, ids), r)
  {
  }

  predicate HasRunKey(c: Config, t: Tables, now: int, runId: Uuid) {
    exists k :: k in RunKeys(c, t, now) && k.id == runId
  }

  predicate EndedLongAgo(c: Config, r: RunData, now: int) {
    IsTerminal(r.status) && r.endedAt.Some? && r.endedAt.value < now - c.runAge
  }

  lemma {:induction false} KeyedRunIsOld(c: Config, t: Tables, b: Tables, now: int, r: RunData)
    requires UniqueKeys(t) && r in t.runs && OwnClassOnly(c, t, b, now) && HasRunKey(c, b, now, r.id)
    ensures EndedLongAgo(c, r, now) && !HasDeliverable(b, r.id)
  {
    var k :| k in RunKeys(c, b, now) && k.id == r.id;
    var o :| o in b.runs && OldRun(c, b, o, now) && k == Key(o.endedAt.value, o.id);
    var q := RunBefore(t, Oldest(TailKeys(c, t, now), c.batch), o);
    assert q == r;
  }

  /** A run that has no key of its class outlives it. */
  lemma {:induction false} UnkeyedRunStays(c: Config, t: Tables, b: Tables, now: int, r: RunData)
    requires r in t.runs && OwnClassOnly(c, t, b, now) && !HasRunKey(c, b, now, r.id)
    ensures r.id !in Oldest(RunKeys(c, b, now), c.batch) && KeepsRun(AfterRuns(c, b, now), r)
  {
    var ids := Oldest(TailKeys(c, t, now), c.batch);
    RunAfter(t, ids, r);
    if r.id in Oldest(RunKeys(c, b, now), c.batch) {
      var k := PickedIsKey(RunKeys(c, b, now), c.batch, r.id);
    }
    assert WithoutTail(r, ids) in AfterRuns(c, b, now).runs;
  }

  lemma {:induction false} ActiveRowsStay(c: Config, t: Tables, b: Tables, now: int, r: RunData)
    requires UniqueKeys(t) && r in t.runs && !IsTerminal(r.status) && OwnClassOnly(c, t, b, now)
    requires r.id !in Oldest(RunKeys(c, b, now), c.batch)
    ensures KeepsRows(t, AfterRuns(c, b, now), r.id)
  {
    var after := AfterRuns(c, b, now);
    assert IsActive(t, r.id);
    forall e | e in t.events && e.runId == r.id ensures e in after.events {
      if e.id in Oldest(EventKeys(c, t, now), c.batch) { PickedEventIsOld(c, t, now, e); }
      assert e in b.events;
    }
    forall n | n in t.notes && n.runId == Some(r.id) ensures n in after.notes {
      if n.id in Oldest(NoteKeys(c, t, now), c.batch) { PickedNoteIsOld(c, t, now, n); }
      assert n in b.notes && Unlinked(n, Oldest(RunKeys(c, b, now), c.batch)) == n;
    }
  }

  /** A cleanup never deletes a run that is active, nor its events or notifications. */
  lemma {:induction false} ActiveRunsStay(c: Config, t: Tables, now: int, r: RunData)
    requires UniqueKeys(t) && r in t.runs && !IsTerminal(r.status)
    ensures KeepsRun(Cleaned(c, t, now), r) && KeepsRows(t, Cleaned(c, t, now), r.id)
  {
    var b := BeforeRuns(c, t, now);
    BeforeRunsAre(c, t, now);
    if HasRunKey(c, b, now, r.id) { KeyedRunIsOld(c, t, b, now, r); }
    UnkeyedRunStays(c, t, b, now, r);
    ActiveRowsStay(c, t, b, now, r);
  }

  /** A binding that is deliverable, and still is when the runs are looked at. */
  predicate StaysDeliverable(c: Config, t: Tables, b: BindingData, now: int) {
    IsDeliverable(b) && b.id !in Oldest(PlaceholderKeys(c, t, now), c.batch)
  }

  predicate HasStaying(c: Config, t: Tables, runId: Uuid, now: int) {
    exists b :: b in t.bindings && b.runId == runId && StaysDeliverable(c, t, b, now)
  }

  lemma {:induction false} DeliverableLater(c: Config, t: Tables, before: Tables, now: int, runId: Uuid)
    requires OwnClassOnly(c, t, before, now)
    ensures HasDeliverable(before, runId) <==> HasStaying(c, t, runId, now)
  {
    var ids := Oldest(PlaceholderKeys(c, t, now), c.batch);
    if HasStaying(c, t, runId, now) {
      var b :| b in t.bindings && b.runId == runId && StaysDeliverable(c, t, b, now);
      assert ExpiredIn(b, ids) in before.bindings && ExpiredIn(b, ids) == b;
    }
    if HasDeliverable(before, runId) {
      var x :| x in before.bindings && x.runId == runId && IsDeliverable(x);
      var b :| b in t.bindings && x == ExpiredIn(b, ids);
      assert StaysDeliverable(c, t, b, now);
    }
  }

  /** The runs that are up for deletion: ended before the cutoff, with no deliverable binding but such as this very call expires. */
  function Doomed(c: Config, t: Tables, now: int): set<Key> {
    set r | r in t.runs && EndedLongAgo(c, r, now) && !HasStaying(c, t, r.id, now) :: Key(r.endedAt.value, r.id)
  }

  lemma {:induction false} DoomedAreKeyed(c: Config, t: Tables, b: Tables, now: int)
    requires OwnClassOnly(c, t, b, now)
    ensures RunKeys(c, b, now) == Doomed(c, t, now)
  {
    var ids := Oldest(TailKeys(c, t, now), c.batch);
    forall k | k in RunKeys(c, b, now) ensures k in Doomed(c, t, now) {
      var o :| o in b.runs && OldRun(c, b, o, now) && k == Key(o.endedAt.value, o.id);
      var r := RunBefore(t, ids, o);
      DeliverableLater(c, t, b, now, r.id);
    }
    forall k | k in Doomed(c, t, now) ensures k in RunKeys(c, b, now) {
      var r :| r in t.runs && EndedLongAgo(c, r, now) && !HasStaying(c, t, r.id, now) && k == Key(r.endedAt.value, r.id);
      DeliverableLater(c, t, b, now, r.id);
      RunAfter(t, ids, r);
      assert OldRun(c, b, WithoutTail(r, ids), now);
    }
  }

  lemma {:induction false} KeptUnlessPicked(c: Config, t: Tables, b: Tables, now: int, r: RunData)
    requires r in t.runs && OwnClassOnly(c, t, b, now)
    ensures KeepsRun(AfterRuns(c, b, now), r) <==> r.id !in Oldest(RunKeys(c, b, now), c.batch)
  {
    var ids := Oldest(TailKeys(c, t, now), c.batch);
    RunAfter(t, ids, r);
    assert WithoutTail(r, ids) in b.runs;
  }

  /**
   A cleanup deletes a run exactly if the run ended before the cutoff, each of its
   deliverable bindings is a placeholder that this very call expires, and fewer such runs
   than a batch holds ended before it.
   */
  lemma {:induction false} RunFate(c: Config, t: Tables, now: int, r: RunData)
    requires UniqueKeys(t) && r in t.runs
    ensures !KeepsRun(Cleaned(c, t, now), r) <==>
            && EndedLongAgo(c, r, now) && !HasStaying(c, t, r.id, now)
            && |set k | k in Doomed(c, t, now) && Older(k, Key(r.endedAt.value, r.id))| < c.batch
  {
    var b := BeforeRuns(c, t, now);
    BeforeRunsAre(c, t, now);
    DoomedAreKeyed(c, t, b, now);
    KeptUnlessPicked(c, t, b, now, r);
    var doomed := Doomed(c, t, now);
    if r.id in Oldest(doomed, c.batch) {
      var k := PickedIsKey(doomed, c.batch, r.id);
      var first :| first in First(doomed, c.batch) && first.id == r.id;
      var o :| o in t.runs && EndedLongAgo(c, o, now) && !HasStaying(c, t, o.id, now) && first == Key(o.endedAt.value, o.id);
      assert o == r;
    } else if EndedLongAgo(c, r, now) && !HasStaying(c, t, r.id, now) {
      assert Key(r.endedAt.value, r.id) in doomed;
    }
  }

  lemma {:induction false} OnePicked(keys: set<Key>, k: Key, batch: nat)
    requires keys == {k} && batch > 0
    ensures Oldest(keys, batch) == {k.id} && (set x | x in keys && Older(x, k)) == {}
  {
    OldestPicks(keys, batch);
    assert First(keys, batch) <= {k};
  }

  /** Tables in which a cleanup deletes a run that has a deliverable binding: a placeholder that has gone stale. */
  lemma {:induction false} DeliverableRunGoes() returns (c: Config, t: Tables, now: int, r: RunData, b: BindingData)
    ensures Linked(t) && UniqueKeys(t) && r in t.runs && b in t.bindings && b.runId == r.id && IsDeliverable(b)
    ensures !KeepsRun(Cleaned(c, t, now), r)
  {
    c, now := Config(10, 10, 10, 10, 10, 10, 10, 10, 10, 10, 10), 100;
    r := RunData(1, "workspace", SUCCEEDED, 0, Some(0), false);
    b := BindingData(2, 1, true, Active, false, 0);
    t := Tables({}, {r}, {}, {b}, {}, {}, {}, {}, {}, {}, {});
    assert HasRun(t, 1);
    assert StalePlaceholder(c, b, now) && PlaceholderKeys(c, t, now) == {Key(0, 2)};
    OnePicked(PlaceholderKeys(c, t, now), Key(0, 2), c.batch);
    assert !HasStaying(c, t, 1, now) && EndedLongAgo(c, r, now);
    assert Doomed(c, t, now) == {Key(0, 1)};
    OnePicked(Doomed(c, t, now), Key(0, 1), c.batch);
    RunFate(c, t, now, r);
  }

  /** So a run with a deliverable binding stays, unless the binding is a stale placeholder. */
  lemma {:induction false} DeliverableRunsStay(c: Config, t: Tables, now: int, r: RunData, b: BindingData)
    requires UniqueKeys(t) && r in t.runs && b in t.bindings && b.runId == r.id && IsDeliverable(b) && !StalePlaceholder(c, b, now)
    ensures KeepsRun(Cleaned(c, t, now), r)
  {
    if b.id in Oldest(PlaceholderKeys(c, t, now), c.batch) { PickedPlaceholderIsStale(c, t, now, b); }
    assert StaysDeliverable(c, t, b, now);
    RunFate(c, t, now, r);
  }
}
