/**
 The revisioned snapshot of a workspace (server/app/api.py: sync_snapshot,
 _sync_etag, _etag_matches; server/app/sync.py: bump_workspace_revision) and the
 transactions that change what it shows (server/app/api.py: upsert_run,
 ingest_run_events, update_machine, claim_pairing_session, delete_subscription,
 post_notification; server/app/lifecycle.py; server/app/retention.py).
 */
module RevisionedSync {
  import opened Wrappers
  import opened Events

  const SYNC_SNAPSHOT_LIMIT: nat := 200

  /** `details` stands for the columns that only pairing changes. */
  datatype Machine = Machine(workspaceId: string, displayName: string, details: string, cliVersion: Option<string>,
                             lastSeenAt: int, pairedAt: int, revoked: bool)

  datatype Subscription = Subscription(id: nat, machineId: string, device: nat)

  /** `content` stands for the columns that never change. */
  datatype Notification = Notification(id: Uuid, workspaceId: string, machineId: Option<string>, runId: Option<Uuid>, content: string,
                                       dedupeKey: Option<string>, createdAt: int)

  /** The workspaces with their revisions, and the tables that a snapshot reads. */
  datatype Database = Database(workspaces: set<string>, revision: string -> nat, runs: set<Run>, machines: map<string, Machine>,
                               devices: map<nat, string>, subscriptions: set<Subscription>, notes: set<Notification>)

  // What a snapshot reads and shows.

  datatype RunView = RunView(run: Run, machineName: string)

  datatype MachineView = MachineView(id: string, machine: Machine, subscriptionIds: set<nat>)

  datatype Reading = Reading(runs: set<RunView>, machines: set<MachineView>, notes: set<Notification>)

  function NameOf(db: Database, machineId: string): string {
    if machineId in db.machines then db.machines[machineId].displayName else ""
  }

  /** At most one, by the unique key of the table. */
  function SubscriptionsOf(db: Database, machineId: string, device: nat): set<nat> {
    set s | s in db.subscriptions && s.machineId == machineId && s.device == device :: s.id
  }

  /** The rows that the queries of a snapshot range over. */
  function Read(db: Database, ws: string, device: nat): Reading {
    Reading(
      set r | r in db.runs && r.workspaceId == ws :: RunView(r, NameOf(db, r.machineId)),
      set m | m in db.machines && db.machines[m].workspaceId == ws && !db.machines[m].revoked ::
        MachineView(m, db.machines[m], SubscriptionsOf(db, m, device)),
      set n | n in db.notes && n.workspaceId == ws)
  }

  datatype Settings = Settings(activeRunLimit: nat, maxMachines: nat)

  /** The response: the first rows by each order, and whether there are more. */
  datatype Snapshot = Snapshot(active: set<RunView>, ended: set<RunView>, machines: set<MachineView>, notes: set<Notification>,
                               moreRuns: bool, moreNotes: bool)

  predicate NewerRun(a: Run, b: Run) {
    a.updatedAt > b.updatedAt || (a.updatedAt == b.updatedAt && a.id > b.id)
  }

  /** The `limit` newest of some runs. */
  function FirstRuns(runs: set<RunView>, limit: nat): set<RunView> {
    set v | v in runs && |set x | x in runs && NewerRun(x.run, v.run)| < limit
  }

  function FirstNotes(notes: set<Notification>, limit: nat): set<Notification> {
    set v | v in notes && |set x | x in notes && (x.createdAt > v.createdAt || (x.createdAt == v.createdAt && x.id > v.id))| < limit
  }

  /** Machine ids are ordered by some order of the database. */
  function FirstMachines(machines: set<MachineView>, limit: nat, above: (string, string) -> bool): set<MachineView> {
    set v | v in machines
            && |set x | x in machines && (x.machine.pairedAt > v.machine.pairedAt
                                          || (x.machine.pairedAt == v.machine.pairedAt && above(x.id, v.id)))| < limit
  }

  /** `sync_snapshot`, apart from the time of the server and the text of the cursors. */
  function SnapshotOf(s: Settings, above: (string, string) -> bool, db: Database, ws: string, device: nat): Snapshot {
    var reading := Read(db, ws, device);
    var active := set v | v in reading.runs && !IsTerminal(v.run.status);
    var ended := set v | v in reading.runs && IsTerminal(v.run.status);
    Snapshot(FirstRuns(active, s.activeRunLimit), FirstRuns(ended, SYNC_SNAPSHOT_LIMIT),
             FirstMachines(reading.machines, s.maxMachines, above),
             FirstNotes(reading.notes, SYNC_SNAPSHOT_LIMIT), |ended| > SYNC_SNAPSHOT_LIMIT, |reading.notes| > SYNC_SNAPSHOT_LIMIT)
  }

  // Transactions.

  datatype Step =
    | Bootstrap(ws: string, device: nat)
    | UpsertRun(machineId: string, run: Run, cliVersion: Option<string>, at: int)
    | IngestEvents(machineId: string, run: Run, inserted: bool, fallback: Option<Notification>)
    | UpdateMachine(machineId: string, displayName: string, at: int)
    | ClaimPairing(device: nat, machineId: string, displayName: string, details: string, cliVersion: Option<string>, at: int, subscription: nat)
    | StopReceiving(machineId: string, device: nat)
    | RevokeMachine(machineId: string)
    | ResetDevice(device: nat)
    | CreateNotification(machineId: string, note: Notification)
    // Ids of notifications, of runs that lose events or their log tail, and of runs.
    | CleanUp(notes: set<Uuid>, events: set<Uuid>, tails: set<Uuid>, runs: set<Uuid>)
    | OtherTables

  function Bumped(db: Database, ws: string): Database {
    var revision := db.revision;
    db.(revision := w => if w == ws then revision(w) + 1 else revision(w))
  }

  /** One bump for each workspace. */
  function BumpedAll(db: Database, changed: set<string>): Database {
    var revision := db.revision;
    db.(revision := w => if w in changed then revision(w) + 1 else revision(w))
  }

  predicate OwnedBy(db: Database, machineId: string) {
    machineId in db.machines && !db.machines[machineId].revoked
  }

  predicate HasDedupe(db: Database, ws: string, key: string) {
    exists n :: n in db.notes && n.workspaceId == ws && n.dedupeKey == Some(key)
  }

  predicate HasRun(db: Database, id: Uuid) {
    exists r :: r in db.runs && r.id == id
  }

  predicate NewNote(db: Database, id: Uuid) {
    forall n :: n in db.notes ==> n.id != id
  }

  predicate Enabled(db: Database, step: Step) {
    match step
    case Bootstrap(ws, device) => ws !in db.workspaces && device !in db.devices
    case UpsertRun(m, run, _, _) =>
      && OwnedBy(db, m) && run.machineId == m
      && (forall r :: r in db.runs && r.id == run.id ==> r.machineId == m && r.workspaceId == run.workspaceId)
      && (!HasRun(db, run.id) ==> run.workspaceId == db.machines[m].workspaceId)
    case IngestEvents(m, run, inserted, fallback) =>
      && OwnedBy(db, m) && run.machineId == m && HasRun(db, run.id)
      && (forall r :: r in db.runs && r.id == run.id ==> r.machineId == m && r.workspaceId == run.workspaceId)
      && (!inserted ==> run in db.runs && fallback.None?)
      && (fallback.Some? ==>
            NewNote(db, fallback.value.id) && fallback.value.workspaceId == run.workspaceId && fallback.value.runId == Some(run.id))
    case UpdateMachine(m, _, _) => OwnedBy(db, m)
    case ClaimPairing(device, m, _, _, _, _, _) =>
      device in db.devices && (m in db.machines ==> db.machines[m].revoked && db.machines[m].workspaceId == db.devices[device])
    case StopReceiving(m, device) => device in db.devices && m in db.machines && db.machines[m].workspaceId == db.devices[device]
    case RevokeMachine(m) => OwnedBy(db, m)
    case ResetDevice(device) => device in db.devices
    case CreateNotification(m, note) =>
      && OwnedBy(db, m) && NewNote(db, note.id) && note.workspaceId == db.machines[m].workspaceId && note.machineId == Some(m)
      && (note.runId.Some? ==> HasRun(db, note.runId.value))
    case CleanUp(_, _, _, _) => true
    case OtherTables => true
  }

  /** The table with one row for a run. */
  function WithRun(runs: set<Run>, run: Run): set<Run> {
    (set r | r in runs && r.id != run.id) + {run}
  }

  /** The notification about a deleted run forgets the run. */
  function Unlinked(note: Notification, runs: set<Uuid>): Notification {
    if note.runId.Some? && note.runId.value in runs then note.(runId := None) else note
  }

  function Trimmed(run: Run, tails: set<Uuid>): Run {
    if run.id in tails then run.(logTail := None) else run
  }

  /** The workspaces whose revision a cleanup bumps. */
  function ChangedBy(db: Database, notes: set<Uuid>, events: set<Uuid>, tails: set<Uuid>, runs: set<Uuid>): set<string> {
    (set n | n in db.notes && n.id in notes :: n.workspaceId)
    + (set r | r in db.runs && r.id in events + tails + runs :: r.workspaceId)
  }

  function Next(db: Database, step: Step): Database
    requires Enabled(db, step)
  {
    match step
    case Bootstrap(ws, device) => db.(workspaces := db.workspaces + {ws}, devices := db.devices[device := ws])
    case UpsertRun(m, run, cliVersion, at) =>
      var machine := db.machines[m];
      Bumped(db.(runs := WithRun(db.runs, run),
                 machines := db.machines[m := machine.(lastSeenAt := at,
                                                       cliVersion := if cliVersion.Some? then cliVersion else machine.cliVersion)]),
             machine.workspaceId)
    case IngestEvents(m, run, inserted, fallback) =>
      if !inserted then db
      else
        var noted := match fallback
          case Some(note) => Bumped(db.(notes := db.notes + {note}), run.workspaceId)
          case None => db;
        Bumped(noted.(runs := WithRun(db.runs, run)), db.machines[m].workspaceId)
    case UpdateMachine(m, name, at) =>
      Bumped(db.(machines := db.machines[m := db.machines[m].(displayName := name, lastSeenAt := at)]), db.machines[m].workspaceId)
    case ClaimPairing(device, m, name, details, cliVersion, at, subscription) =>
      var ws := db.devices[device];
      Bumped(db.(machines := db.machines[m := Machine(ws, name, details, cliVersion, at, at, false)],
                 subscriptions := if SubscriptionsOf(db, m, device) != {} then db.subscriptions
                                  else db.subscriptions + {Subscription(subscription, m, device)}), ws)
    case StopReceiving(m, device) =>
      Bumped(db.(subscriptions := set x | x in db.subscriptions && !(x.machineId == m && x.device == device)), db.devices[device])
    case RevokeMachine(m) =>
      Bumped(db.(machines := db.machines[m := db.machines[m].(revoked := true)],
                 subscriptions := set x | x in db.subscriptions && x.machineId != m), db.machines[m].workspaceId)
    case ResetDevice(device) =>
      Bumped(db.(subscriptions := set x | x in db.subscriptions && x.device != device), db.devices[device])
    case CreateNotification(_, note) =>
      if note.dedupeKey.Some? && HasDedupe(db, note.workspaceId, note.dedupeKey.value) then db
      else Bumped(db.(notes := db.notes + {note}), note.workspaceId)
    case CleanUp(notes, events, tails, runs) =>
      BumpedAll(
        db.(notes := set n | n in db.notes && n.id !in notes :: Unlinked(n, runs),
            runs := set r | r in db.runs && r.id !in runs :: Trimmed(r, tails)),
        ChangedBy(db, notes, events, tails, runs))
    case OtherTables => db
  }

  ghost predicate Possible(db: Database, steps: seq<Step>)
    decreases |steps|
  {
    steps == [] || (Enabled(db, steps[0]) && Possible(Next(db, steps[0]), steps[1..]))
  }

  ghost function After(db: Database, steps: seq<Step>): Database
    requires Possible(db, steps)
    decreases |steps|
  {
    if steps == [] then db else After(Next(db, steps[0]), steps[1..])
  }

  const EMPTY := Database({}, w => 0, {}, map[], map[], {}, {})

  /** Keys and workspaces fit together. */
  predicate Consistent(db: Database) {
    && (forall r :: r in db.runs ==> r.machineId in db.machines && r.workspaceId == db.machines[r.machineId].workspaceId)
    && (forall m :: m in db.machines ==> db.machines[m].workspaceId in db.workspaces)
    && (forall d :: d in db.devices ==> db.devices[d] in db.workspaces)
    && (forall x :: x in db.subscriptions ==>
          x.machineId in db.machines && x.device in db.devices && db.machines[x.machineId].workspaceId == db.devices[x.device])
    && (forall n :: n in db.notes ==> n.workspaceId in db.workspaces && (n.runId.Some? ==> HasRun(db, n.runId.value)))
  }

  /** The run of a notification is in its own workspace. */
  predicate OwnRuns(db: Database) {
    forall n, r :: n in db.notes && r in db.runs && n.runId == Some(r.id) ==> r.workspaceId == n.workspaceId
  }

  predicate LinksOwnRun(db: Database, step: Step) {
    step.CreateNotification? ==> forall r :: r in db.runs && step.note.runId == Some(r.id) ==> r.workspaceId == step.note.workspaceId
  }

  ghost predicate AllLinkOwnRuns(db: Database, steps: seq<Step>)
    requires Possible(db, steps)
    decreases |steps|
  {
    steps != [] ==> LinksOwnRun(db, steps[0]) && AllLinkOwnRuns(Next(db, steps[0]), steps[1..])
  }

  // What stays when the revision stays.

  predicate SameRuns(db: Database, after: Database, ws: string) {
    && (forall r :: r in db.runs && r.workspaceId == ws ==> r in after.runs && NameOf(after, r.machineId) == NameOf(db, r.machineId))
    && (forall r :: r in after.runs && r.workspaceId == ws ==> r in db.runs)
  }

  predicate SameMachines(db: Database, after: Database, ws: string) {
    && (forall m :: m in db.machines && db.machines[m].workspaceId == ws ==> m in after.machines && after.machines[m] == db.machines[m])
    && (forall m :: m in after.machines && after.machines[m].workspaceId == ws ==> m in db.machines && db.machines[m].workspaceId == ws)
  }

  ghost predicate SameSubscriptions(db: Database, after: Database, ws: string) {
    forall m, d :: m in db.machines && db.machines[m].workspaceId == ws ==> SubscriptionsOf(after, m, d) == SubscriptionsOf(db, m, d)
  }

  predicate SameNotes(db: Database, after: Database, ws: string) {
    && (forall n :: n in db.notes && n.workspaceId == ws ==> n in after.notes)
    && (forall n :: n in after.notes && n.workspaceId == ws ==> n in db.notes)
  }

  /** A workspace whose rows are left alone reads the same, for every device. */
  ghost predicate Untouched(db: Database, after: Database, ws: string) {
    SameRuns(db, after, ws) && SameMachines(db, after, ws) && SameSubscriptions(db, after, ws) && SameNotes(db, after, ws)
  }

  lemma {:induction false} UntouchedReadsSame(db: Database, after: Database, ws: string, device: nat)
    requires Untouched(db, after, ws)
    ensures Read(after, ws, device) == Read(db, ws, device)
  {
    var a, b := Read(db, ws, device), Read(after, ws, device);
    forall v ensures v in a.runs <==> v in b.runs {
      if v in a.runs { assert v.run in after.runs; }
      if v in b.runs { assert v.run in db.runs; }
    }
    assert b.runs == a.runs;
    forall v ensures v in a.machines <==> v in b.machines {
      if v in a.machines { assert SubscriptionsOf(after, v.id, device) == SubscriptionsOf(db, v.id, device); }
      if v in b.machines { assert SubscriptionsOf(after, v.id, device) == SubscriptionsOf(db, v.id, device); }
    }
    assert b.machines == a.machines;
    assert b.notes == a.notes;
  }

  /** The workspace whose rows a step may change, if it is one. */
  function Changes(db: Database, step: Step): Option<string>
    requires Enabled(db, step)
  {
    match step
    case UpsertRun(m, _, _, _) => Some(db.machines[m].workspaceId)
    case IngestEvents(m, _, inserted, _) => if inserted then Some(db.machines[m].workspaceId) else None
    case UpdateMachine(m, _, _) => Some(db.machines[m].workspaceId)
    case ClaimPairing(device, _, _, _, _, _, _) => Some(db.devices[device])
    case StopReceiving(_, device) => Some(db.devices[device])
    case RevokeMachine(m) => Some(db.machines[m].workspaceId)
    case ResetDevice(device) => Some(db.devices[device])
    case CreateNotification(_, note) =>
      if note.dedupeKey.Some? && HasDedupe(db, note.workspaceId, note.dedupeKey.value) then None else Some(note.workspaceId)
    case _ => None
  }

  /** The runs of a step are in the workspace of their machine. */
  lemma {:induction false} RunIsOwned(db: Database, step: Step)
    requires Consistent(db) && Enabled(db, step) && (step.UpsertRun? || step.IngestEvents?)
    ensures step.run.workspaceId == db.machines[step.machineId].workspaceId
  {
    if HasRun(db, step.run.id) {
      var r :| r in db.runs && r.id == step.run.id;
    }
  }

  lemma {:induction false} UpsertUntouched(db: Database, step: Step, ws: string)
    requires Consistent(db) && Enabled(db, step) && step.UpsertRun? && Changes(db, step) != Some(ws)
    ensures Untouched(db, Next(db, step), ws)
  {
    RunIsOwned(db, step);
  }

  lemma {:induction false} IngestUntouched(db: Database, step: Step, ws: string)
    requires Consistent(db) && Enabled(db, step) && step.IngestEvents? && Changes(db, step) != Some(ws)
    ensures Untouched(db, Next(db, step), ws)
  {
    RunIsOwned(db, step);
  }

  lemma {:induction false} RenameUntouched(db: Database, step: Step, ws: string)
    requires Consistent(db) && Enabled(db, step) && step.UpdateMachine? && Changes(db, step) != Some(ws)
    ensures Untouched(db, Next(db, step), ws)
  {
  }

  lemma {:induction false} ClaimUntouched(db: Database, step: Step, ws: string)
    requires Consistent(db) && Enabled(db, step) && step.ClaimPairing? && Changes(db, step) != Some(ws)
    ensures Untouched(db, Next(db, step), ws)
  {
    forall m, d | m in db.machines && db.machines[m].workspaceId == ws
      ensures SubscriptionsOf(Next(db, step), m, d) == SubscriptionsOf(db, m, d)
    {
      assert forall x :: x in db.subscriptions && x.machineId == m ==> x in Next(db, step).subscriptions;
    }
  }

  lemma {:induction false} RevokeUntouched(db: Database, step: Step, ws: string)
    requires Consistent(db) && Enabled(db, step) && step.RevokeMachine? && Changes(db, step) != Some(ws)
    ensures Untouched(db, Next(db, step), ws)
  {
    forall m, d | m in db.machines && db.machines[m].workspaceId == ws
      ensures SubscriptionsOf(Next(db, step), m, d) == SubscriptionsOf(db, m, d)
    {
      assert forall x :: x in db.subscriptions && x.machineId == m ==> x in Next(db, step).subscriptions;
    }
  }

  lemma {:induction false} SubscriptionUntouched(db: Database, step: Step, ws: string)
    requires Consistent(db) && Enabled(db, step) && (step.StopReceiving? || step.ResetDevice?) && Changes(db, step) != Some(ws)
    ensures Untouched(db, Next(db, step), ws)
  {
    forall m, d | m in db.machines && db.machines[m].workspaceId == ws
      ensures SubscriptionsOf(Next(db, step), m, d) == SubscriptionsOf(db, m, d)
    {
      assert forall x :: x in db.subscriptions && x.machineId == m ==> x in Next(db, step).subscriptions;
    }
  }

  lemma {:induction false} NotificationUntouched(db: Database, step: Step, ws: string)
    requires Consistent(db) && Enabled(db, step) && step.CreateNotification? && Changes(db, step) != Some(ws)
    ensures Untouched(db, Next(db, step), ws)
  {
  }

  lemma {:induction false} OthersUntouched(db: Database, step: Step, ws: string)
    requires Consistent(db) && Enabled(db, step) && !step.CleanUp? && Changes(db, step) != Some(ws)
    ensures Untouched(db, Next(db, step), ws)
  {
    match step
    case UpsertRun(_, _, _, _) => UpsertUntouched(db, step, ws);
    case IngestEvents(_, _, _, _) => IngestUntouched(db, step, ws);
    case UpdateMachine(_, _, _) => RenameUntouched(db, step, ws);
    case ClaimPairing(_, _, _, _, _, _, _) => ClaimUntouched(db, step, ws);
    case StopReceiving(_, _) => SubscriptionUntouched(db, step, ws);
    case ResetDevice(_) => SubscriptionUntouched(db, step, ws);
    case RevokeMachine(_) => RevokeUntouched(db, step, ws);
    case CreateNotification(_, _) => NotificationUntouched(db, step, ws);
    case Bootstrap(_, _) =>
    case OtherTables =>
  }

  lemma {:induction false} ChangedIsBumped(db: Database, step: Step, ws: string)
    requires Enabled(db, step) && !step.CleanUp?
    ensures Next(db, step).revision(ws) >= db.revision(ws)
    ensures Changes(db, step) == Some(ws) ==> Next(db, step).revision(ws) > db.revision(ws)
  {
  }

  /** A cleanup unlinks a kept notification of a workspace from a deleted run. */
  predicate Unlinks(db: Database, step: Step, ws: string) {
    step.CleanUp? && exists n :: n in db.notes && n.id !in step.notes && n.workspaceId == ws && n.runId.Some? && n.runId.value in step.runs
  }

  lemma {:induction false} CleanUpUntouched(db: Database, step: Step, ws: string)
    requires Consistent(db) && Enabled(db, step) && step.CleanUp? && !Unlinks(db, step, ws)
    requires ws !in ChangedBy(db, step.notes, step.events, step.tails, step.runs)
    ensures Untouched(db, Next(db, step), ws)
  {
    var after := Next(db, step);
    forall r | r in db.runs && r.workspaceId == ws ensures r in after.runs {
      assert r.id !in step.runs && r.id !in step.tails && Trimmed(r, step.tails) == r;
    }
    forall n | n in db.notes && n.workspaceId == ws ensures n in after.notes {
      assert n.id !in step.notes && Unlinked(n, step.runs) == n;
    }
    forall r | r in after.runs && r.workspaceId == ws ensures r in db.runs {
      var o :| o in db.runs && o.id !in step.runs && r == Trimmed(o, step.tails);
    }
    forall n | n in after.notes && n.workspaceId == ws ensures n in db.notes {
      var o :| o in db.notes && o.id !in step.notes && n == Unlinked(o, step.runs);
    }
  }

  /** With every notification about a run of its own workspace, an unlinked notification is in a bumped workspace. */
  lemma {:induction false} OwnRunsAreBumped(db: Database, step: Step, ws: string)
    requires Consistent(db) && OwnRuns(db) && Unlinks(db, step, ws)
    ensures ws in ChangedBy(db, step.notes, step.events, step.tails, step.runs)
  {
    var n :| n in db.notes && n.id !in step.notes && n.workspaceId == ws && n.runId.Some? && n.runId.value in step.runs;
    var r :| r in db.runs && r.id == n.runId.value;
    assert r.workspaceId == ws;
  }

  // Consistency.

  lemma {:induction false} WithRunHas(db: Database, runs: set<Run>, run: Run)
    requires runs == WithRun(db.runs, run)
    ensures forall id :: HasRun(db, id) ==> exists r :: r in runs && r.id == id
  {
    forall id | HasRun(db, id) ensures exists r :: r in runs && r.id == id {
      var r :| r in db.runs && r.id == id;
      assert if id == run.id then run in runs else r in runs;
    }
  }

  lemma {:induction false} BootstrapKeeps(db: Database, step: Step)
    requires Consistent(db) && Enabled(db, step) && step.Bootstrap?
    ensures Consistent(Next(db, step))
  {
  }

  lemma {:induction false} UpsertKeeps(db: Database, step: Step)
    requires Consistent(db) && Enabled(db, step) && step.UpsertRun?
    ensures Consistent(Next(db, step))
  {
    RunIsOwned(db, step);
    WithRunHas(db, WithRun(db.runs, step.run), step.run);
  }

  lemma {:induction false} IngestKeeps(db: Database, step: Step)
    requires Consistent(db) && Enabled(db, step) && step.IngestEvents?
    ensures Consistent(Next(db, step))
  {
    RunIsOwned(db, step);
    WithRunHas(db, WithRun(db.runs, step.run), step.run);
    assert step.run in WithRun(db.runs, step.run);
  }

  lemma {:induction false} RenameKeeps(db: Database, step: Step)
    requires Consistent(db) && Enabled(db, step) && step.UpdateMachine?
    ensures Consistent(Next(db, step))
  {
  }

  lemma {:induction false} ClaimKeeps(db: Database, step: Step)
    requires Consistent(db) && Enabled(db, step) && step.ClaimPairing?
    ensures Consistent(Next(db, step))
  {
  }

  lemma {:induction false} RevokeKeeps(db: Database, step: Step)
    requires Consistent(db) && Enabled(db, step) && step.RevokeMachine?
    ensures Consistent(Next(db, step))
  {
  }

  lemma {:induction false} SubscriptionKeeps(db: Database, step: Step)
    requires Consistent(db) && Enabled(db, step) && (step.StopReceiving? || step.ResetDevice?)
    ensures Consistent(Next(db, step))
  {
  }

  lemma {:induction false} NotificationKeeps(db: Database, step: Step)
    requires Consistent(db) && Enabled(db, step) && step.CreateNotification?
    ensures Consistent(Next(db, step))
  {
  }

  lemma {:induction false} CleanUpKeeps(db: Database, step: Step)
    requires Consistent(db) && Enabled(db, step) && step.CleanUp?
    ensures Consistent(Next(db, step))
  {
    var after := Next(db, step);
    forall n | n in after.notes ensures n.workspaceId in after.workspaces && (n.runId.Some? ==> HasRun(after, n.runId.value)) {
      var o :| o in db.notes && o.id !in step.notes && n == Unlinked(o, step.runs);
      if n.runId.Some? {
        var r :| r in db.runs && r.id == n.runId.value;
        assert Trimmed(r, step.tails) in after.runs && Trimmed(r, step.tails).id == r.id;
      }
    }
    forall r | r in after.runs ensures r.machineId in after.machines && r.workspaceId == after.machines[r.machineId].workspaceId {
      var o :| o in db.runs && o.id !in step.runs && r == Trimmed(o, step.tails);
    }
  }

  lemma {:induction false} StepKeeps(db: Database, step: Step)
    requires Consistent(db) && Enabled(db, step)
    ensures Consistent(Next(db, step))
  {
    match step
    case Bootstrap(_, _) => BootstrapKeeps(db, step);
    case UpsertRun(_, _, _, _) => UpsertKeeps(db, step);
    case IngestEvents(_, _, _, _) => IngestKeeps(db, step);
    case UpdateMachine(_, _, _) => RenameKeeps(db, step);
    case ClaimPairing(_, _, _, _, _, _, _) => ClaimKeeps(db, step);
    case StopReceiving(_, _) => SubscriptionKeeps(db, step);
    case ResetDevice(_) => SubscriptionKeeps(db, step);
    case RevokeMachine(_) => RevokeKeeps(db, step);
    case CreateNotification(_, _) => NotificationKeeps(db, step);
    case CleanUp(_, _, _, _) => CleanUpKeeps(db, step);
    case OtherTables =>
  }

  /** Where the notifications and runs of the next database come from. */
  lemma {:induction false} NotesComeFrom(db: Database, step: Step, n: Notification)
    requires Enabled(db, step) && n in Next(db, step).notes
    ensures || (step.CreateNotification? && n == step.note)
            || (step.IngestEvents? && step.fallback == Some(n))
            || exists o :: o in db.notes && o.workspaceId == n.workspaceId && (n.runId.Some? ==> n.runId == o.runId)
  {
    if step.CleanUp? {
      var o :| o in db.notes && o.id !in step.notes && n == Unlinked(o, step.runs);
    }
  }

  lemma {:induction false} RunsComeFrom(db: Database, step: Step, r: Run)
    requires Enabled(db, step) && r in Next(db, step).runs
    ensures || ((step.UpsertRun? || step.IngestEvents?) && r == step.run)
            || exists o :: o in db.runs && o.id == r.id && o.workspaceId == r.workspaceId
  {
    if step.CleanUp? {
      var o :| o in db.runs && o.id !in step.runs && r == Trimmed(o, step.tails);
    }
  }

  lemma {:induction false} OwnRunsStay(db: Database, step: Step)
    requires Consistent(db) && Enabled(db, step) && OwnRuns(db) && LinksOwnRun(db, step)
    ensures OwnRuns(Next(db, step))
  {
    var after := Next(db, step);
    forall n, r | n in after.notes && r in after.runs && n.runId == Some(r.id) ensures r.workspaceId == n.workspaceId {
      NotesComeFrom(db, step, n);
      RunsComeFrom(db, step, r);
      if step.UpsertRun? || step.IngestEvents? {
        RunIsOwned(db, step);
        OwnRunStays(db, step, n, r);
      }
    }
  }

  lemma {:induction false} OwnRunStays(db: Database, step: Step, n: Notification, r: Run)
    requires Consistent(db) && Enabled(db, step) && OwnRuns(db) && (step.UpsertRun? || step.IngestEvents?)
    requires n in Next(db, step).notes && r in Next(db, step).runs && n.runId == Some(r.id)
    ensures r.workspaceId == n.workspaceId
  {
    if n in db.notes {
      var o :| o in db.runs && o.id == n.runId.value;
      assert o.workspaceId == n.workspaceId;
      assert r == step.run ==> o.id == step.run.id;
    } else {
      assert step.IngestEvents? && step.fallback == Some(n);
      assert r.id == step.run.id;
    }
  }

  // The cache.

  /** Read the same by every device. */
  ghost predicate SameReading(db: Database, after: Database, ws: string) {
    forall device: nat :: Read(after, ws, device) == Read(db, ws, device)
  }

  lemma {:induction false} UntouchedSameReading(db: Database, after: Database, ws: string)
    requires Untouched(db, after, ws)
    ensures SameReading(db, after, ws)
  {
    forall device: nat ensures Read(after, ws, device) == Read(db, ws, device) {
      UntouchedReadsSame(db, after, ws, device);
    }
  }

  /** A step that leaves a revision alone leaves alone what the workspace shows. */
  lemma {:induction false} StepShows(db: Database, step: Step, ws: string)
    requires Consistent(db) && Enabled(db, step) && OwnRuns(db)
    ensures Next(db, step).revision(ws) >= db.revision(ws)
    ensures Next(db, step).revision(ws) == db.revision(ws) ==> SameReading(db, Next(db, step), ws)
  {
    var after := Next(db, step);
    if step.CleanUp? {
      if after.revision(ws) == db.revision(ws) {
        if Unlinks(db, step, ws) { OwnRunsAreBumped(db, step, ws); }
        CleanUpUntouched(db, step, ws);
        UntouchedSameReading(db, after, ws);
      }
    } else {
      ChangedIsBumped(db, step, ws);
      if Changes(db, step) != Some(ws) {
        OthersUntouched(db, step, ws);
        UntouchedSameReading(db, after, ws);
      }
    }
  }

  lemma {:induction false} SameReadingOn(a: Database, b: Database, c: Database, ws: string)
    requires SameReading(a, b, ws) && SameReading(b, c, ws)
    ensures SameReading(a, c, ws)
  {
  }

  lemma {:induction false} HistoryShows(db: Database, steps: seq<Step>, ws: string)
    requires Consistent(db) && OwnRuns(db) && Possible(db, steps) && AllLinkOwnRuns(db, steps)
    ensures After(db, steps).revision(ws) >= db.revision(ws)
    ensures After(db, steps).revision(ws) == db.revision(ws) ==> SameReading(db, After(db, steps), ws)
    decreases |steps|
  {
    if steps != [] {
      var next := Next(db, steps[0]);
      StepShows(db, steps[0], ws);
      StepKeeps(db, steps[0]);
      OwnRunsStay(db, steps[0]);
      HistoryShows(next, steps[1..], ws);
      if After(db, steps).revision(ws) == db.revision(ws) {
        SameReadingOn(db, next, After(db, steps), ws);
      }
    }
  }

  lemma {:induction false} HistoryKeeps(db: Database, steps: seq<Step>)
    requires Consistent(db) && OwnRuns(db) && Possible(db, steps) && AllLinkOwnRuns(db, steps)
    ensures Consistent(After(db, steps)) && OwnRuns(After(db, steps))
    decreases |steps|
  {
    if steps != [] {
      StepKeeps(db, steps[0]);
      OwnRunsStay(db, steps[0]);
      HistoryKeeps(Next(db, steps[0]), steps[1..]);
    }
  }

  // Conditional requests.

  function Digits(n: nat): string {
    if n < 10 then [('0' as nat + n) as char] else Digits(n / 10) + [('0' as nat + n % 10) as char]
  }

  lemma {:induction false} DigitsInjective(a: nat, b: nat)
    requires Digits(a) == Digits(b)
    ensures a == b
  {
    var s := Digits(a);
    if a >= 10 && b >= 10 {
      assert s[..|s| - 1] == Digits(a / 10) && s[..|s| - 1] == Digits(b / 10);
      DigitsInjective(a / 10, b / 10);
    }
    assert s[|s| - 1] as nat - '0' as nat == a % 10 == b % 10;
  }

  function ETag(ws: string, revision: nat): string {
    "\"sync-" + ws + "-" + Digits(revision) + "\""
  }

  /** `sent` holds the candidates of If-None-Match, split at commas and stripped. */
  predicate Matched(sent: set<string>, etag: string) {
    "*" in sent || etag in sent || "W/" + etag in sent
  }

  datatype Answer = NotModified | Ahead | Full(revision: nat, etag: string, snapshot: Snapshot)

  /** GET /sync with the cursor and the entity tags that a client sends. */
  function Get(s: Settings, above: (string, string) -> bool, db: Database, ws: string, device: nat,
               cursor: Option<nat>, sent: set<string>): Answer
  {
    var revision := db.revision(ws);
    if cursor.Some? && cursor.value > revision then Ahead
    else if cursor == Some(revision) || Matched(sent, ETag(ws, revision)) then NotModified
    else Full(revision, ETag(ws, revision), SnapshotOf(s, above, db, ws, device))
  }

  lemma {:induction false} ETagInjective(ws: string, a: nat, b: nat)
    requires ETag(ws, a) == ETag(ws, b)
    ensures a == b
  {
    var x, y := ETag(ws, a), ETag(ws, b);
    var n := |"\"sync-" + ws + "-"|;
    assert x[n..|x| - 1] == Digits(a) && y[n..|y| - 1] == Digits(b);
    DigitsInjective(a, b);
  }

  /** What a client may send that holds the answer of an earlier request. */
  predicate SendsBack(cursor: Option<nat>, sent: set<string>, ws: string, revision: nat) {
    && (cursor.Some? ==> cursor.value == revision)
    && forall e :: e in sent ==> e == ETag(ws, revision) || e == "W/" + ETag(ws, revision)
  }

  lemma {:induction false} MatchMeansSameRevision(cursor: Option<nat>, sent: set<string>, ws: string, held: nat, revision: nat)
    requires SendsBack(cursor, sent, ws, held)
    requires cursor == Some(revision) || Matched(sent, ETag(ws, revision))
    ensures held == revision
  {
    if cursor != Some(revision) {
      var now, earlier := ETag(ws, revision), ETag(ws, held);
      assert now[0] == '"' && earlier[0] == '"' && ("W/" + earlier)[0] == 'W' && ("W/" + now)[0] == 'W';
      if now in sent {
        ETagInjective(ws, revision, held);
      } else {
        assert "W/" + now in sent;
        assert ("W/" + now)[2..] == now && ("W/" + earlier)[2..] == earlier;
        ETagInjective(ws, revision, held);
      }
    }
  }

  /**
   Answering 304 is sound: a client that sends back the cursor or the entity tag of the
   snapshot it holds is told so only if it would get the same snapshot again.
   */
  lemma {:induction false} NotModifiedIsSound(s: Settings, above: (string, string) -> bool, steps: seq<Step>, more: seq<Step>,
                                              ws: string, device: nat, cursor: Option<nat>, sent: set<string>)
    requires Possible(EMPTY, steps) && AllLinkOwnRuns(EMPTY, steps)
    requires Possible(After(EMPTY, steps), more) && AllLinkOwnRuns(After(EMPTY, steps), more)
    requires SendsBack(cursor, sent, ws, After(EMPTY, steps).revision(ws))
    requires Get(s, above, After(After(EMPTY, steps), more), ws, device, cursor, sent) == NotModified
    ensures SnapshotOf(s, above, After(After(EMPTY, steps), more), ws, device) == SnapshotOf(s, above, After(EMPTY, steps), ws, device)
  {
    var held := After(EMPTY, steps);
    var now := After(held, more);
    HistoryKeeps(EMPTY, steps);
    HistoryShows(held, more, ws);
    MatchMeansSameRevision(cursor, sent, ws, held.revision(ws), now.revision(ws));
    assert Read(now, ws, device) == Read(held, ws, device);
  }

  // Where it fails.

  lemma {:induction false} UnlinkedReadsDifferently(db: Database, step: Step, ws: string, device: nat)
    requires Enabled(db, step) && Unlinks(db, step, ws)
    ensures Read(Next(db, step), ws, device) != Read(db, ws, device)
  {
    var n :| n in db.notes && n.id !in step.notes && n.workspaceId == ws && n.runId.Some? && n.runId.value in step.runs;
    assert n in Read(db, ws, device).notes;
    assert n !in Next(db, step).notes;
  }

  /**
   The exact condition without the assumption: a cleanup that does not bump a workspace
   changes what it shows if and only if it deletes a run that a kept notification of the
   workspace is about, which is then a run of another workspace.
   */
  lemma {:induction false} CleanUpShows(db: Database, step: Step, ws: string)
    requires Consistent(db) && Enabled(db, step) && step.CleanUp?
    requires ws !in ChangedBy(db, step.notes, step.events, step.tails, step.runs)
    ensures Next(db, step).revision(ws) == db.revision(ws)
    ensures SameReading(db, Next(db, step), ws) <==> !Unlinks(db, step, ws)
  {
    if Unlinks(db, step, ws) {
      UnlinkedReadsDifferently(db, step, ws, 0);
    } else {
      CleanUpUntouched(db, step, ws);
      UntouchedSameReading(db, Next(db, step), ws);
    }
  }

  lemma OneNote(note: Notification)
    ensures FirstNotes({note}, SYNC_SNAPSHOT_LIMIT) == {note}
  {
    var one := {note};
    assert (set x | x in one && (x.createdAt > note.createdAt || (x.createdAt == note.createdAt && x.id > note.id))) == {};
  }

  /** A notification of one workspace about a run of another one. */
  predicate Crosses(db: Database, run: Run, note: Notification) {
    && db.runs == {run} && db.notes == {note} && note.runId == Some(run.id)
    && run.workspaceId == "theirs" && note.workspaceId == "ours"
  }

  lemma {:induction false} CrossedIsCleaned(db: Database, run: Run, note: Notification)
    requires Crosses(db, run, note)
    ensures var after := Next(db, CleanUp({}, {}, {}, {run.id}));
            && after.revision("ours") == db.revision("ours")
            && Read(db, "ours", 0).notes == {note} && Read(after, "ours", 0).notes == {note.(runId := None)}
  {
    var after := Next(db, CleanUp({}, {}, {}, {run.id}));
    assert ChangedBy(db, {}, {}, {}, {run.id}) == {"theirs"};
    assert after.notes == {note.(runId := None)};
  }

  /** A cleanup then changes the snapshot behind a revision that stays: the notification loses its run. */
  lemma {:induction false} CrossedGoesStale(s: Settings, above: (string, string) -> bool, db: Database, run: Run, note: Notification)
    requires Crosses(db, run, note)
    ensures var after := Next(db, CleanUp({}, {}, {}, {run.id}));
            && Get(s, above, after, "ours", 0, Some(db.revision("ours")), {}) == NotModified
            && SnapshotOf(s, above, after, "ours", 0) != SnapshotOf(s, above, db, "ours", 0)
  {
    var after := Next(db, CleanUp({}, {}, {}, {run.id}));
    CrossedIsCleaned(db, run, note);
    OneNote(note);
    OneNote(note.(runId := None));
    assert SnapshotOf(s, above, db, "ours", 0).notes == {note};
    assert SnapshotOf(s, above, after, "ours", 0).notes == {note.(runId := None)};
    assert note in {note} && note !in {note.(runId := None)};
  }

  lemma {:induction false} StepsFirst(db: Database, step: Step, rest: seq<Step>)
    requires Enabled(db, step) && Possible(Next(db, step), rest)
    ensures Possible(db, [step] + rest) && After(db, [step] + rest) == After(Next(db, step), rest)
  {
    assert ([step] + rest)[0] == step && ([step] + rest)[1..] == rest;
  }

  const RUNNING_RUN := Run(7, "theirs", "their-machine", "title", "cli", RUNNING, "healthy", Attention.NONE, None, None, None, None,
                           0, Some(0), 0, None, None, None, Automatic, 1)

  const ENDED_RUN := RUNNING_RUN.(status := SUCCEEDED, endedAt := Some(1), updatedAt := 1, lastSeq := 2)

  const CROSSING := Notification(8, "ours", Some("our-machine"), Some(7), "content", None, 2)

  const PAIRING: seq<Step> := [
    Bootstrap("ours", 0), Bootstrap("theirs", 1),
    ClaimPairing(0, "our-machine", "mine", "details", None, 0, 0), ClaimPairing(1, "their-machine", "yours", "details", None, 0, 1)]

  const CROSSED: seq<Step> := [
    UpsertRun("their-machine", RUNNING_RUN, None, 0), IngestEvents("their-machine", ENDED_RUN, true, None),
    CreateNotification("our-machine", CROSSING)]

  /** Two workspaces with a machine each. */
  predicate Paired(db: Database) {
    && db.runs == {} && db.notes == {}
    && OwnedBy(db, "our-machine") && db.machines["our-machine"].workspaceId == "ours"
    && OwnedBy(db, "their-machine") && db.machines["their-machine"].workspaceId == "theirs"
  }

  lemma {:induction false} PairingPairs()
    ensures Possible(EMPTY, PAIRING) && Paired(After(EMPTY, PAIRING))
  {
    var d1 := Next(EMPTY, PAIRING[0]);
    var d2 := Next(d1, PAIRING[1]);
    var d3 := Next(d2, PAIRING[2]);
    StepsFirst(d3, PAIRING[3], []);
    StepsFirst(d2, PAIRING[2], [PAIRING[3]]);
    StepsFirst(d1, PAIRING[1], [PAIRING[2]] + [PAIRING[3]]);
    StepsFirst(EMPTY, PAIRING[0], [PAIRING[1]] + ([PAIRING[2]] + [PAIRING[3]]));
    assert PAIRING == [PAIRING[0]] + ([PAIRING[1]] + ([PAIRING[2]] + [PAIRING[3]]));
  }

  lemma {:induction false} CrossedCrosses(db: Database)
    requires Paired(db)
    ensures Possible(db, CROSSED) && Crosses(After(db, CROSSED), ENDED_RUN, CROSSING)
  {
    var d1 := Next(db, CROSSED[0]);
    assert d1.runs == {RUNNING_RUN} && HasRun(d1, 7);
    var d2 := Next(d1, CROSSED[1]);
    assert d2.runs == {ENDED_RUN} && HasRun(d2, 7);
    StepsFirst(d2, CROSSED[2], []);
    StepsFirst(d1, CROSSED[1], [CROSSED[2]]);
    StepsFirst(db, CROSSED[0], [CROSSED[1]] + [CROSSED[2]]);
    assert CROSSED == [CROSSED[0]] + ([CROSSED[1]] + [CROSSED[2]]);
  }

  lemma {:induction false} StepsConcat(db: Database, steps: seq<Step>, more: seq<Step>)
    requires Possible(db, steps) && Possible(After(db, steps), more)
    ensures Possible(db, steps + more) && After(db, steps + more) == After(After(db, steps), more)
    decreases |steps|
  {
    if steps == [] {
      assert steps + more == more;
    } else {
      StepsConcat(Next(db, steps[0]), steps[1..], more);
      assert (steps + more)[0] == steps[0] && (steps + more)[1..] == steps[1..] + more;
    }
  }

  /**
   Without the assumption the answer is wrong in some history: from the empty database to
   a notification about a run of another workspace, and then one cleanup of that run.
   */
  lemma {:induction false} StaleSnapshot(s: Settings, above: (string, string) -> bool) returns (steps: seq<Step>, more: seq<Step>)
    ensures Possible(EMPTY, steps) && Possible(After(EMPTY, steps), more)
    ensures var held := After(EMPTY, steps);
            var now := After(held, more);
            && Get(s, above, now, "ours", 0, Some(held.revision("ours")), {}) == NotModified
            && SnapshotOf(s, above, now, "ours", 0) != SnapshotOf(s, above, held, "ours", 0)
  {
    PairingPairs();
    CrossedCrosses(After(EMPTY, PAIRING));
    StepsConcat(EMPTY, PAIRING, CROSSED);
    steps, more := PAIRING + CROSSED, [CleanUp({}, {}, {}, {7})];
    var held := After(EMPTY, steps);
    StepsFirst(held, more[0], []);
    assert more == [more[0]] + [];
    CrossedGoesStale(s, above, held, ENDED_RUN, CROSSING);
  }
}
