/**
 What each transaction makes of what a workspace shows (server/app/api.py,
 server/app/lifecycle.py): when it can happen, and what is then read.
 */
module SyncEffects {
  import opened Wrappers
  import opened Events
  import opened RevisionedSync

  // Machines.

  /** The machine has been paired and not revoked since. */
  predicate IsPaired(db: Database, m: string) {
    m in db.machines && db.machines[m].revoked == false
  }

  /** To the device the machine is shown once, in its workspace, and as one that it has subscribed to or not. */
  ghost predicate ShowsMachine(db: Database, device: nat, m: string, view: Machine, subscribed: bool) {
    && (exists ids :: MachineView(m, view, ids) in Read(db, view.workspaceId, device).machines && (ids != {} <==> subscribed))
    && forall v :: v in Read(db, view.workspaceId, device).machines && v.id == m ==> v.machine == view && (v.subscriptionIds != {} <==> subscribed)
  }

  ghost predicate HidesMachine(db: Database, m: string) {
    forall ws, device, v :: v in Read(db, ws, device).machines ==> v.id != m
  }

  /** The device has subscribed to the machine. */
  predicate HasSubscribed(db: Database, m: string, device: nat) {
    exists x :: x in db.subscriptions && x.machineId == m && x.device == device
  }

  lemma {:induction false} ShowsPaired(db: Database, device: nat, m: string)
    requires IsPaired(db, m)
    ensures ShowsMachine(db, device, m, db.machines[m], HasSubscribed(db, m, device))
  {
    var ids := SubscriptionsOf(db, m, device);
    assert MachineView(m, db.machines[m], ids) in Read(db, db.machines[m].workspaceId, device).machines;
    if HasSubscribed(db, m, device) {
      var x :| x in db.subscriptions && x.machineId == m && x.device == device;
      assert x.id in ids;
    }
  }

  /** No other subscription has come or gone. */
  ghost predicate OthersSubscribedAsBefore(db: Database, after: Database, m: string, device: nat) {
    forall n, d :: (n != m || d != device) ==> (HasSubscribed(after, n, d) <==> HasSubscribed(db, n, d))
  }

  /** Claiming a pairing session shows the machine anew, to the claiming device as one that it has subscribed to. */
  lemma {:induction false} ClaimShows(db: Database, device: nat, m: string, name: string, details: string, cliVersion: Option<string>, at: int,
                                      subscription: nat)
    requires device in db.devices && (m in db.machines ==> db.machines[m].revoked && db.machines[m].workspaceId == db.devices[device])
    ensures var step := ClaimPairing(device, m, name, details, cliVersion, at, subscription);
            && Enabled(db, step)
            && var after := Next(db, step);
            && ShowsMachine(after, device, m, Machine(db.devices[device], name, details, cliVersion, at, at, false), true)
            && OthersSubscribedAsBefore(db, after, m, device)
            && (forall n :: n != m ==> (n in after.machines <==> n in db.machines) && (n in db.machines ==> after.machines[n] == db.machines[n]))
  {
    var after := Next(db, ClaimPairing(device, m, name, details, cliVersion, at, subscription));
    if SubscriptionsOf(db, m, device) == {} {
      assert Subscription(subscription, m, device) in after.subscriptions;
    } else {
      var id :| id in SubscriptionsOf(db, m, device);
    }
    assert HasSubscribed(after, m, device);
    ShowsPaired(after, device, m);
  }

  ghost predicate OtherMachinesAsBefore(db: Database, after: Database, m: string) {
    forall n :: n != m ==> (n in after.machines <==> n in db.machines) && (n in db.machines ==> after.machines[n] == db.machines[n])
  }

  /** A machine with a new name is shown with it to every device, and so are its runs. */
  lemma {:induction false} RenameShows(db: Database, m: string, name: string, at: int, device: nat, r: Run)
    requires IsPaired(db, m)
    ensures var step := UpdateMachine(m, name, at);
            && Enabled(db, step)
            && var after := Next(db, step);
            && ShowsMachine(after, device, m, db.machines[m].(displayName := name, lastSeenAt := at), HasSubscribed(db, m, device))
            && (r in db.runs && r.machineId == m ==> RunView(r, name) in Read(after, r.workspaceId, device).runs)
            && OtherMachinesAsBefore(db, after, m) && after.subscriptions == db.subscriptions && after.runs == db.runs && after.notes == db.notes
  {
    var after := Next(db, UpdateMachine(m, name, at));
    ShowsPaired(after, device, m);
  }

  /** A revoked machine is shown to no device and nobody is subscribed to it. */
  lemma {:induction false} RevokeShows(db: Database, m: string)
    requires IsPaired(db, m)
    ensures var step := RevokeMachine(m);
            && Enabled(db, step)
            && var after := Next(db, step);
            && HidesMachine(after, m) && OtherMachinesAsBefore(db, after, m)
            && (forall n, d :: HasSubscribed(after, n, d) <==> HasSubscribed(db, n, d) && n != m)
            && after.runs == db.runs && after.notes == db.notes
  {
  }

  /** A device that stops receiving from a machine of its workspace has exactly that subscription no more. */
  lemma {:induction false} StopShows(db: Database, m: string, device: nat)
    requires device in db.devices && m in db.machines && db.machines[m].workspaceId == db.devices[device]
    ensures var step := StopReceiving(m, device);
            && Enabled(db, step)
            && var after := Next(db, step);
            && !HasSubscribed(after, m, device) && OthersSubscribedAsBefore(db, after, m, device)
            && after.machines == db.machines && after.runs == db.runs && after.notes == db.notes
  {
  }

  /** A device that is reset has no subscription, and every other device has its own. */
  lemma {:induction false} ResetShows(db: Database, device: nat)
    requires device in db.devices
    ensures var step := ResetDevice(device);
            && Enabled(db, step)
            && var after := Next(db, step);
            && (forall n, d :: HasSubscribed(after, n, d) <==> HasSubscribed(db, n, d) && d != device)
            && after.machines == db.machines && after.runs == db.runs && after.notes == db.notes
  {
  }

  /** The credential of the machine is used. */
  predicate IsBy(step: Step, m: string) {
    match step
    case UpsertRun(x, _, _, _) => x == m
    case IngestEvents(x, _, _, _) => x == m
    case UpdateMachine(x, _, _) => x == m
    case RevokeMachine(x) => x == m
    case CreateNotification(x, _) => x == m
    case _ => false
  }

  predicate Claims(step: Step, m: string) {
    step.ClaimPairing? && step.machineId == m
  }

  predicate IsRevoked(db: Database, m: string) {
    m in db.machines && db.machines[m].revoked
  }

  lemma {:induction false} StaysRevoked(db: Database, step: Step, m: string)
    requires IsRevoked(db, m) && Enabled(db, step) && !Claims(step, m)
    ensures IsRevoked(Next(db, step), m) && !IsBy(step, m)
  {
  }

  /** Once a machine has been revoked nothing is done in its name until it is paired again. */
  lemma {:induction false} RevokedIsRefused(db: Database, steps: seq<Step>, m: string, i: nat)
    requires IsRevoked(db, m) && Possible(db, steps) && i < |steps| && forall j :: 0 <= j < i ==> !Claims(steps[j], m)
    ensures !IsBy(steps[i], m)
    decreases |steps|
  {
    if i > 0 {
      StaysRevoked(db, steps[0], m);
      RevokedIsRefused(Next(db, steps[0]), steps[1..], m, i - 1);
    }
  }

  // Runs and notifications.

  /** The run is shown with the name of its machine, and no other row with its id. */
  ghost predicate ShowsRun(db: Database, device: nat, run: Run) {
    && run.machineId in db.machines
    && RunView(run, db.machines[run.machineId].displayName) in Read(db, run.workspaceId, device).runs
    && forall ws, v :: v in Read(db, ws, device).runs && v.run.id == run.id ==> v.run == run
  }

  ghost predicate OtherRunsAsBefore(db: Database, after: Database, id: Uuid) {
    forall r: Run :: r.id != id ==> (r in after.runs <==> r in db.runs)
  }

  /** The run has not been registered, or has been by the same machine for the same workspace. */
  predicate IsOwn(db: Database, run: Run) {
    forall r :: r in db.runs && r.id == run.id ==> r.machineId == run.machineId && r.workspaceId == run.workspaceId
  }

  /** A machine that registers a run, for the first time or again, is seen now, and the run is shown as registered. */
  lemma {:induction false} UpsertShows(db: Database, run: Run, cliVersion: Option<string>, at: int, device: nat)
    requires IsPaired(db, run.machineId) && IsOwn(db, run)
    requires (forall r :: r in db.runs ==> r.id != run.id) ==> run.workspaceId == db.machines[run.machineId].workspaceId
    ensures var m, step := run.machineId, UpsertRun(run.machineId, run, cliVersion, at);
            && Enabled(db, step)
            && var after := Next(db, step);
            && ShowsRun(after, device, run) && OtherRunsAsBefore(db, after, run.id) && OtherMachinesAsBefore(db, after, m)
            && IsPaired(after, m)
            && after.machines[m] == db.machines[m].(lastSeenAt := at,
                                                    cliVersion := if cliVersion.Some? then cliVersion else db.machines[m].cliVersion)
            && after.notes == db.notes && after.subscriptions == db.subscriptions
  {
  }

  /** The notification that may come with the end of a run. */
  predicate IsFallback(db: Database, run: Run, note: Notification) {
    note.workspaceId == run.workspaceId && note.runId == Some(run.id) && forall n :: n in db.notes ==> n.id != note.id
  }

  /** Events that are accepted make the run what it is shown as, with its fallback if there is one; if none is accepted nothing changes. */
  lemma {:induction false} IngestShows(db: Database, run: Run, inserted: bool, fallback: Option<Notification>, device: nat)
    requires IsPaired(db, run.machineId) && IsOwn(db, run) && exists r :: r in db.runs && r.id == run.id
    requires if inserted then fallback.Some? ==> IsFallback(db, run, fallback.value) else run in db.runs && fallback == None
    ensures var step := RevisionedSync.IngestEvents(run.machineId, run, inserted, fallback);
            && Enabled(db, step)
            && var after := Next(db, step);
            if !inserted then after == db
            else
              && ShowsRun(after, device, run) && OtherRunsAsBefore(db, after, run.id)
              && (forall n :: n in after.notes <==> n in db.notes || Some(n) == fallback)
              && after.machines == db.machines && after.subscriptions == db.subscriptions
  {
  }

  /** A notification is shown unless one of the workspace has its key already; then nothing changes. */
  lemma {:induction false} NoteShows(db: Database, m: string, note: Notification, device: nat)
    requires IsPaired(db, m) && note.machineId == Some(m) && note.workspaceId == db.machines[m].workspaceId
    requires forall n :: n in db.notes ==> n.id != note.id
    requires note.runId.Some? ==> exists r :: r in db.runs && r.id == note.runId.value
    ensures var step := RevisionedSync.CreateNotification(m, note);
            && Enabled(db, step)
            && var after := Next(db, step);
            if exists n :: n in db.notes && n.workspaceId == note.workspaceId && note.dedupeKey.Some? && n.dedupeKey == note.dedupeKey
            then after == db
            else
              && note in Read(after, note.workspaceId, device).notes && (forall n :: n in after.notes <==> n in db.notes || n == note)
              && after.runs == db.runs && after.machines == db.machines && after.subscriptions == db.subscriptions
  {
    if n :| n in db.notes && n.workspaceId == note.workspaceId && note.dedupeKey.Some? && n.dedupeKey == note.dedupeKey {
      assert HasDedupe(db, note.workspaceId, note.dedupeKey.value);
    }
  }

  /** Each run stays with its machine and its workspace for as long as it is there. */
  ghost predicate RunsStayPut(db: Database, after: Database) {
    forall r, x :: r in db.runs && x in after.runs && x.id == r.id ==> x.machineId == r.machineId && x.workspaceId == r.workspaceId
  }

  /** No transaction of any machine gives a run to another machine or workspace. */
  lemma {:induction false} RunsAreNotTaken(db: Database, step: Step)
    requires Enabled(db, step) && forall r, x :: r in db.runs && x in db.runs && r.id == x.id ==> r == x
    ensures RunsStayPut(db, Next(db, step))
  {
    match step
    case CleanUp(_, _, tails, _) =>
      forall r, x | r in db.runs && x in Next(db, step).runs && x.id == r.id ensures x.machineId == r.machineId && x.workspaceId == r.workspaceId {
        var o :| o in db.runs && x == Trimmed(o, tails);
      }
    case _ =>
  }

  // Cleanups.

  /** What is left of a notification: without its run, if that has gone. */
  ghost predicate IsLeftOf(x: Notification, n: Notification, runs: set<Uuid>) {
    if exists id :: id in runs && n.runId == Some(id) then x == n.(runId := None) else x == n
  }

  ghost predicate NotesLeft(before: set<Notification>, after: set<Notification>, notes: set<Uuid>, runs: set<Uuid>) {
    forall x :: x in after <==> exists n :: n in before && n.id !in notes && IsLeftOf(x, n, runs)
  }

  lemma {:induction false} UnlinkedAreLeft(before: set<Notification>, after: set<Notification>, notes: set<Uuid>, runs: set<Uuid>)
    requires after == set n | n in before && n.id !in notes :: Unlinked(n, runs)
    ensures NotesLeft(before, after, notes, runs)
  {
    forall x ensures x in after <==> exists n :: n in before && n.id !in notes && IsLeftOf(x, n, runs) {
      if x in after {
        var n :| n in before && n.id !in notes && x == Unlinked(n, runs);
        assert IsLeftOf(x, n, runs);
      }
      if n :| n in before && n.id !in notes && IsLeftOf(x, n, runs) { assert x == Unlinked(n, runs); }
    }
  }

  /** What is left of a run: without its log tail, if that has gone. */
  ghost predicate IsTrimmedFrom(x: Run, r: Run, tails: set<Uuid>) {
    x == if r.id in tails then r.(logTail := None) else r
  }

  ghost predicate RunsLeft(before: set<Run>, after: set<Run>, tails: set<Uuid>, runs: set<Uuid>) {
    forall x :: x in after <==> exists r :: r in before && r.id !in runs && IsTrimmedFrom(x, r, tails)
  }

  lemma {:induction false} TrimmedAreLeft(before: set<Run>, after: set<Run>, tails: set<Uuid>, runs: set<Uuid>)
    requires after == set r | r in before && r.id !in runs :: Trimmed(r, tails)
    ensures RunsLeft(before, after, tails, runs)
  {
    forall x ensures x in after <==> exists r :: r in before && r.id !in runs && IsTrimmedFrom(x, r, tails) {
      if x in after {
        var r :| r in before && r.id !in runs && x == Trimmed(r, tails);
        assert IsTrimmedFrom(x, r, tails);
      }
      if r :| r in before && r.id !in runs && IsTrimmedFrom(x, r, tails) { assert x == Trimmed(r, tails); }
    }
  }

  /** Exactly the named rows go; a kept notification forgets a run that has gone, and a kept run its log tail if that is named. */
  lemma {:induction false} CleanUpTells(db: Database, notes: set<Uuid>, events: set<Uuid>, tails: set<Uuid>, runs: set<Uuid>)
    ensures var step := CleanUp(notes, events, tails, runs);
            && Enabled(db, step)
            && var after := Next(db, step);
            && NotesLeft(db.notes, after.notes, notes, runs) && RunsLeft(db.runs, after.runs, tails, runs)
            && after.machines == db.machines && after.subscriptions == db.subscriptions
  {
    var after := Next(db, CleanUp(notes, events, tails, runs));
    UnlinkedAreLeft(db.notes, after.notes, notes, runs);
    TrimmedAreLeft(db.runs, after.runs, tails, runs);
  }

  // Revisions.

  /** The workspaces whose rows a cleanup deletes or changes, or whose runs lose events. */
  ghost predicate IsCleaned(db: Database, step: Step, ws: string)
    requires step.CleanUp?
  {
    || (exists n :: n in db.notes && n.workspaceId == ws && n.id in step.notes)
    || (exists r :: r in db.runs && r.workspaceId == ws && (r.id in step.events || r.id in step.tails || r.id in step.runs))
  }

  /** The workspace of what the step is about. */
  ghost predicate Concerns(db: Database, step: Step, ws: string) {
    match step
    case UpsertRun(m, _, _, _) => m in db.machines && ws == db.machines[m].workspaceId
    case IngestEvents(m, _, inserted, _) => inserted && m in db.machines && ws == db.machines[m].workspaceId
    case UpdateMachine(m, _, _) => m in db.machines && ws == db.machines[m].workspaceId
    case ClaimPairing(device, _, _, _, _, _, _) => device in db.devices && ws == db.devices[device]
    case StopReceiving(_, device) => device in db.devices && ws == db.devices[device]
    case RevokeMachine(m) => m in db.machines && ws == db.machines[m].workspaceId
    case ResetDevice(device) => device in db.devices && ws == db.devices[device]
    case CreateNotification(_, note) =>
      ws == note.workspaceId && (note.dedupeKey == None || forall n :: n in db.notes && n.workspaceId == ws ==> n.dedupeKey != note.dedupeKey)
    case CleanUp(_, _, _, _) => IsCleaned(db, step, ws)
    case Bootstrap(_, _) => false
    case OtherTables => false
  }

  /** How often a transaction bumps a workspace that it is about: once, and once more for a fallback notification. */
  function Bumps(step: Step): nat {
    if step.IngestEvents? && step.fallback.Some? then 2 else 1
  }

  /** A transaction raises the revision of the workspace that it is about by its bumps, and of no other. */
  lemma {:induction false} RevisionTells(db: Database, step: Step, ws: string)
    requires Consistent(db) && Enabled(db, step)
    ensures var before, after := db.revision(ws), Next(db, step).revision(ws);
            after == before + if Concerns(db, step, ws) then Bumps(step) else 0
  {
    match step
    case IngestEvents(_, _, _, _) => RunIsOwned(db, step);
    case CleanUp(notes, events, tails, runs) =>
      if ws in ChangedBy(db, notes, events, tails, runs) {
        if !exists n :: n in db.notes && n.id in notes && n.workspaceId == ws {
          var r :| r in db.runs && r.id in events + tails + runs && r.workspaceId == ws;
        }
      }
    case CreateNotification(_, note) =>
      if note.dedupeKey.Some? && HasDedupe(db, note.workspaceId, note.dedupeKey.value) {
        var n :| n in db.notes && n.workspaceId == note.workspaceId && n.dedupeKey == note.dedupeKey;
      }
    case _ =>
  }
}
