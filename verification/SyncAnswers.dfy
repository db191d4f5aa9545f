/** What a device learns from the answers of GET /sync (server/app/api.py: sync_snapshot). */
module SyncAnswers {
  import opened Wrappers
  import opened Events
  import opened Sequences
  import opened RevisionedSync

  // Conditional requests.

  /** A request that carries nothing but what an earlier answer has handed out. */
  predicate CarriesOn(cursor: Option<nat>, sent: set<string>, rev: nat, tag: string) {
    && (cursor.Some? ==> cursor.value == rev)
    && forall e :: e in sent ==> e == tag || e == "W/" + tag
  }

  /**
   A device that has an answer in full, and later sends back the cursor or the entity tag
   that came with it, is never told that it is ahead; and it is told 304 only if a request
   that carries neither would get the snapshot that the device already has.
   */
  lemma {:induction false} AnswerIsSound(s: Settings, above: (string, string) -> bool, steps: seq<Step>, more: seq<Step>, ws: string, device: nat,
                                         cursor0: Option<nat>, sent0: set<string>, cursor: Option<nat>, sent: set<string>,
                                         rev: nat, tag: string, snap: Snapshot)
    requires Possible(EMPTY, steps) && AllLinkOwnRuns(EMPTY, steps)
    requires Possible(After(EMPTY, steps), more) && AllLinkOwnRuns(After(EMPTY, steps), more)
    requires Get(s, above, After(EMPTY, steps), ws, device, cursor0, sent0) == Full(rev, tag, snap)
    requires CarriesOn(cursor, sent, rev, tag)
    ensures var now := After(After(EMPTY, steps), more);
            var answer, plain := Get(s, above, now, ws, device, cursor, sent), Get(s, above, now, ws, device, None, {});
            && !answer.Ahead? && plain.Full?
            && (answer.NotModified? ==> plain.snapshot == snap)
            && (answer.Full? ==> answer == plain)
  {
    var held := After(EMPTY, steps);
    HistoryKeeps(EMPTY, steps);
    HistoryShows(held, more, ws);
    if Get(s, above, After(held, more), ws, device, cursor, sent) == NotModified {
      NotModifiedIsSound(s, above, steps, more, ws, device, cursor, sent);
    }
  }

  /** The other half: sent back at once, the cursor or the tag, in either form, is enough to be told 304. */
  lemma {:induction false} AnswerIsCurrent(s: Settings, above: (string, string) -> bool, db: Database, ws: string, device: nat,
                                           cursor0: Option<nat>, sent0: set<string>, cursor: Option<nat>, sent: set<string>,
                                           rev: nat, tag: string, snap: Snapshot)
    requires Get(s, above, db, ws, device, cursor0, sent0) == Full(rev, tag, snap) && CarriesOn(cursor, sent, rev, tag)
    ensures Get(s, above, db, ws, device, cursor, sent) == NotModified <==> cursor.Some? || sent != {}
  {
    if sent != {} {
      var e :| e in sent;
    }
  }

  // The newest rows.

  ghost predicate Orders<T(!new)>(all: set<T>, newer: (T, T) -> bool) {
    && (forall x :: x in all ==> !newer(x, x))
    && (forall x, y :: x in all && y in all && x != y ==> newer(x, y) || newer(y, x))
    && (forall x, y, z :: x in all && y in all && z in all && newer(x, y) && newer(y, z) ==> newer(x, z))
  }

  /** The newest rows, as many as there may be or all; every other row is older than each of them. */
  ghost predicate NewestOf<T(!new)>(all: set<T>, shown: set<T>, limit: nat, newer: (T, T) -> bool) {
    && shown <= all
    && |shown| == (if |all| <= limit then |all| else limit)
    && forall x, y :: x in shown && y in all && y !in shown ==> newer(x, y)
  }

  ghost function NewerThan<T(!new)>(all: set<T>, v: T, newer: (T, T) -> bool): set<T> {
    set x | x in all && newer(x, v)
  }

  lemma {:induction false} OldestExists<T(!new)>(all: set<T>, newer: (T, T) -> bool) returns (last: T)
    requires all != {} && Orders(all, newer)
    ensures last in all && forall x :: x in all && x != last ==> newer(x, last)
    decreases |all|
  {
    var v :| v in all;
    var others := all - {v};
    if others == {} {
      last := v;
      assert all == {v};
    } else {
      var rest := OldestExists(others, newer);
      last := if newer(rest, v) then v else rest;
      forall x | x in all && x != last ensures newer(x, last) {
        assert x == v || x in others;
      }
    }
  }

  lemma {:induction false} TopIsNewest<T(!new)>(all: set<T>, shown: set<T>, limit: nat, newer: (T, T) -> bool)
    requires Orders(all, newer)
    requires forall v :: v in shown <==> v in all && |NewerThan(all, v, newer)| < limit
    ensures NewestOf(all, shown, limit, newer)
    decreases |all|
  {
    if all == {} {
      assert shown == {};
    } else {
      var last := OldestExists(all, newer);
      var rest := all - {last};
      forall v | v in rest ensures NewerThan(rest, v, newer) == NewerThan(all, v, newer) {
      }
      assert NewerThan(all, last, newer) == rest;
      var shownRest := shown - {last};
      TopIsNewest(rest, shownRest, limit, newer);
      TopWithLast(all, shown, limit, newer, last);
    }
  }

  lemma {:induction false} TopWithLast<T(!new)>(all: set<T>, shown: set<T>, limit: nat, newer: (T, T) -> bool, last: T)
    requires last in all && forall x :: x in all && x != last ==> newer(x, last)
    requires NewestOf(all - {last}, shown - {last}, limit, newer)
    requires last in shown <==> |all - {last}| < limit
    requires shown <= all
    ensures NewestOf(all, shown, limit, newer)
  {
    var rest, shownRest := all - {last}, shown - {last};
    assert |all| == |rest| + 1;
    if last in shown {
      assert shown == shownRest + {last};
      if shownRest != rest { SubsetSize(rest, rest); ProperSize(shownRest, rest); }
      assert shownRest == rest;
    } else {
      assert shown == shownRest;
    }
  }

  lemma ProperSize<T>(a: set<T>, b: set<T>)
    requires a < b
    ensures |a| < |b|
  {
    var x :| x in b && x !in a;
    SubsetSize(a, b - {x});
  }

  // Snapshots.

  /** Runs and notifications have one row for each id. */
  predicate OneRowEach(db: Database) {
    && (forall a, b :: a in db.runs && b in db.runs && a.id == b.id ==> a == b)
    && (forall a, b :: a in db.notes && b in db.notes && a.id == b.id ==> a == b)
  }

  lemma {:induction false} StepKeepsOneRowEach(db: Database, step: Step)
    requires OneRowEach(db) && Enabled(db, step)
    ensures OneRowEach(Next(db, step))
  {
    match step
    case CleanUp(notes, events, tails, runs) => CleanUpKeepsOneRowEach(db, step);
    case _ =>
  }

  lemma {:induction false} CleanUpKeepsOneRowEach(db: Database, step: Step)
    requires OneRowEach(db) && step.CleanUp?
    ensures OneRowEach(Next(db, step))
  {
    var after := Next(db, step);
    forall a, b | a in after.runs && b in after.runs && a.id == b.id ensures a == b {
      var x :| x in db.runs && a == Trimmed(x, step.tails);
      var y :| y in db.runs && b == Trimmed(y, step.tails);
    }
    forall a, b | a in after.notes && b in after.notes && a.id == b.id ensures a == b {
      var x :| x in db.notes && a == Unlinked(x, step.runs);
      var y :| y in db.notes && b == Unlinked(y, step.runs);
    }
  }

  lemma {:induction false} HistoryKeepsRows(db: Database, steps: seq<Step>)
    requires OneRowEach(db) && Consistent(db) && Possible(db, steps)
    ensures OneRowEach(After(db, steps)) && Consistent(After(db, steps))
    decreases |steps|
  {
    if steps != [] {
      StepKeepsOneRowEach(db, steps[0]);
      StepKeeps(db, steps[0]);
      HistoryKeepsRows(Next(db, steps[0]), steps[1..]);
    }
  }

  /** The runs of a workspace, active or ended, with the names of their machines. */
  ghost function RunsShown(db: Database, ws: string, ended: bool): set<RunView>
    requires Consistent(db)
  {
    set r | r in db.runs && r.workspaceId == ws && (r.status in {SUCCEEDED, FAILED, CANCELLED, LOST} <==> ended) ::
      RunView(r, db.machines[r.machineId].displayName)
  }

  ghost function MachinesShown(db: Database, ws: string, device: nat): set<MachineView> {
    set m | m in db.machines && db.machines[m].workspaceId == ws && !db.machines[m].revoked ::
      MachineView(m, db.machines[m], set x | x in db.subscriptions && x.machineId == m && x.device == device :: x.id)
  }

  ghost function NotesShown(db: Database, ws: string): set<Notification> {
    set n | n in db.notes && n.workspaceId == ws
  }

  predicate LaterRun(a: RunView, b: RunView) {
    if a.run.updatedAt == b.run.updatedAt then a.run.id > b.run.id else a.run.updatedAt > b.run.updatedAt
  }

  predicate LaterNote(a: Notification, b: Notification) {
    if a.createdAt == b.createdAt then a.id > b.id else a.createdAt > b.createdAt
  }

  ghost predicate OrdersIds(above: (string, string) -> bool) {
    && (forall x :: !above(x, x)) && (forall x, y :: x != y ==> above(x, y) || above(y, x))
    && (forall x, y, z :: above(x, y) && above(y, z) ==> above(x, z))
  }

  predicate LaterMachine(a: MachineView, b: MachineView, above: (string, string) -> bool) {
    if a.machine.pairedAt == b.machine.pairedAt then above(a.id, b.id) else a.machine.pairedAt > b.machine.pairedAt
  }

  lemma {:induction false} RunsOrdered(db: Database, ws: string, ended: bool)
    requires OneRowEach(db) && Consistent(db)
    ensures Orders(RunsShown(db, ws, ended), LaterRun)
  {
  }

  lemma {:induction false} RunsAreNewest(db: Database, ws: string, ended: bool, all: set<RunView>, limit: nat)
    requires OneRowEach(db) && Consistent(db) && all == RunsShown(db, ws, ended)
    ensures NewestOf(all, FirstRuns(all, limit), limit, LaterRun)
  {
    RunsOrdered(db, ws, ended);
    forall v ensures v in FirstRuns(all, limit) <==> v in all && |NewerThan(all, v, LaterRun)| < limit {
      assert NewerThan(all, v, LaterRun) == set x | x in all && NewerRun(x.run, v.run);
    }
    TopIsNewest(all, FirstRuns(all, limit), limit, LaterRun);
  }

  lemma {:induction false} NotesAreNewest(db: Database, ws: string, limit: nat)
    requires OneRowEach(db)
    ensures NewestOf(NotesShown(db, ws), FirstNotes(NotesShown(db, ws), limit), limit, LaterNote)
  {
    var all := NotesShown(db, ws);
    forall v ensures v in FirstNotes(all, limit) <==> v in all && |NewerThan(all, v, LaterNote)| < limit {
      assert NewerThan(all, v, LaterNote)
          == set x | x in all && (x.createdAt > v.createdAt || (x.createdAt == v.createdAt && x.id > v.id));
    }
    TopIsNewest(all, FirstNotes(all, limit), limit, LaterNote);
  }

  lemma {:induction false} MachinesAreNewest(db: Database, ws: string, device: nat, limit: nat, above: (string, string) -> bool)
    requires OrdersIds(above)
    ensures var later := (a: MachineView, b: MachineView) => LaterMachine(a, b, above);
            NewestOf(MachinesShown(db, ws, device), FirstMachines(MachinesShown(db, ws, device), limit, above), limit, later)
  {
    var all, later := MachinesShown(db, ws, device), (a: MachineView, b: MachineView) => LaterMachine(a, b, above);
    forall v ensures v in FirstMachines(all, limit, above) <==> v in all && |NewerThan(all, v, later)| < limit {
      assert NewerThan(all, v, later)
          == set x | x in all && (x.machine.pairedAt > v.machine.pairedAt
                                  || (x.machine.pairedAt == v.machine.pairedAt && above(x.id, v.id)));
    }
    TopIsNewest(all, FirstMachines(all, limit, above), limit, later);
  }

  lemma {:induction false} MoreIffLeftOut<T(!new)>(all: set<T>, shown: set<T>, limit: nat, newer: (T, T) -> bool)
    requires NewestOf(all, shown, limit, newer)
    ensures |all| > limit <==> shown != all
  {
    if shown != all { ProperSize(shown, all); }
  }

  lemma {:induction false} ReadingIs(db: Database, ws: string, device: nat)
    requires Consistent(db)
    ensures var reading := Read(db, ws, device);
            && (set v | v in reading.runs && !IsTerminal(v.run.status)) == RunsShown(db, ws, false)
            && (set v | v in reading.runs && IsTerminal(v.run.status)) == RunsShown(db, ws, true)
            && reading.machines == MachinesShown(db, ws, device) && reading.notes == NotesShown(db, ws)
  {
  }

  /**
   In every history a snapshot shows the newest active and the newest ended runs of the
   workspace with the names of their machines, its newest machines that are not revoked with
   the device's own subscriptions, and its newest notifications, each up to its limit; and
   it says that there are more exactly if one was left out.
   */
  lemma {:induction false} SnapshotIsExact(s: Settings, above: (string, string) -> bool, steps: seq<Step>, ws: string, device: nat)
    requires Possible(EMPTY, steps) && OrdersIds(above)
    ensures Consistent(After(EMPTY, steps))
    ensures var db := After(EMPTY, steps);
            var snap, later := SnapshotOf(s, above, db, ws, device), (a: MachineView, b: MachineView) => LaterMachine(a, b, above);
            && NewestOf(RunsShown(db, ws, false), snap.active, s.activeRunLimit, LaterRun)
            && NewestOf(RunsShown(db, ws, true), snap.ended, 200, LaterRun)
            && NewestOf(MachinesShown(db, ws, device), snap.machines, s.maxMachines, later)
            && NewestOf(NotesShown(db, ws), snap.notes, 200, LaterNote)
            && (snap.moreRuns <==> snap.ended != RunsShown(db, ws, true))
            && (snap.moreNotes <==> snap.notes != NotesShown(db, ws))
  {
    var db := After(EMPTY, steps);
    HistoryKeepsRows(EMPTY, steps);
    ReadingIs(db, ws, device);
    RunsAreNewest(db, ws, false, RunsShown(db, ws, false), s.activeRunLimit);
    RunsAreNewest(db, ws, true, RunsShown(db, ws, true), SYNC_SNAPSHOT_LIMIT);
    MachinesAreNewest(db, ws, device, s.maxMachines, above);
    NotesAreNewest(db, ws, SYNC_SNAPSHOT_LIMIT);
    MoreIffLeftOut(RunsShown(db, ws, true), FirstRuns(RunsShown(db, ws, true), SYNC_SNAPSHOT_LIMIT), SYNC_SNAPSHOT_LIMIT, LaterRun);
    MoreIffLeftOut(NotesShown(db, ws), FirstNotes(NotesShown(db, ws), SYNC_SNAPSHOT_LIMIT), SYNC_SNAPSHOT_LIMIT, LaterNote);
  }
}
