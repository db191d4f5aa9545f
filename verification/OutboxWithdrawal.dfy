/**
 What is withdrawn when a device stops receiving from a machine, a machine is revoked or a
 device is reset (server/app/lifecycle.py), and that nothing else is.
 */
module OutboxWithdrawal {
  import opened Wrappers
  import opened Events
  import opened Ingest
  import opened Outbox
  import opened OutboxRuns

  /** The push would be sent to a device, or to an activity on it. */
  predicate GoesTo(w: World, r: Row, d: nat) {
    match r.target
    case DeviceTarget(x) => x == d
    case ActivityTarget(b) => b < |w.bindings| && w.bindings[b].device == d
  }

  predicate RunsOn(w: World, runId: Uuid, machineId: string) {
    runId in w.runs && w.runs[runId].machineId == machineId
  }

  /** The push is about a run of the machine, or notifies of it. */
  predicate IsAbout(w: World, r: Row, machineId: string, d: nat) {
    || (r.runId.Some? && RunsOn(w, r.runId.value, machineId) && GoesTo(w, r, d)
        && (r.target.ActivityTarget? ==> RunsOn(w, w.bindings[r.target.binding].runId, machineId)))
    || (r.key.NoteKey? && r.key.device == d && r.key.note < |w.notes| && w.notes[r.key.note].machineId == Some(machineId))
  }

  /** A row is cancelled now if it waited, or left alone. */
  predicate CancelledIf(before: Row, after: Row, withdrawn: bool, now: int) {
    if withdrawn && before.state == PENDING
    then after == before.(state := CANCELLED_PUSH, updatedAt := now)
    else after == before
  }

  /** A binding can never be delivered to again by itself, or is left alone. */
  predicate InvalidIf(before: Binding, after: Binding, withdrawn: bool) {
    if withdrawn
    then after == Binding(before.runId, before.device, before.activity, false, before.generation, INVALIDATED, before.lastSequence, true)
    else after == before
  }

  predicate SameBut(before: World, after: World) {
    |after.rows| == |before.rows| && |after.bindings| == |before.bindings| && |after.devices| == |before.devices|
    && after.runs == before.runs && after.notes == before.notes && after.attempts == before.attempts
  }

  /** Exactly the pushes that wait for the device because of the machine go, and the subscription. */
  lemma {:induction false} StoppingWithdraws(s: Settings, w: World, machineId: string, device: nat, now: int)
    ensures var after := Next(s, w, Tick(StopReceiving(machineId, device), now));
            && SameBut(w, after) && after.bindings == w.bindings && after.devices == w.devices
            && (forall i :: 0 <= i < |w.rows| ==> CancelledIf(w.rows[i], after.rows[i], IsAbout(w, w.rows[i], machineId, device), now))
            && (forall m, d :: (m, d) in after.subscriptions <==> (m, d) in w.subscriptions && !(m == machineId && d == device))
  {
    var after := Next(s, w, Tick(StopReceiving(machineId, device), now));
    forall i | 0 <= i < |w.rows| ensures CancelledIf(w.rows[i], after.rows[i], IsAbout(w, w.rows[i], machineId, device), now) {
      assert IsAbout(w, w.rows[i], machineId, device) <==> AboutMachine(w, w.rows[i], machineId, {device});
    }
  }

  ghost predicate AboutSubscriber(w: World, r: Row, machineId: string) {
    exists d :: (machineId, d) in w.subscriptions && IsAbout(w, r, machineId, d)
  }

  lemma {:induction false} AboutSubscribed(w: World, r: Row, machineId: string)
    ensures AboutSubscriber(w, r, machineId) <==> AboutMachine(w, r, machineId, SubscribedDevices(w, machineId))
  {
    forall d: nat ensures d in SubscribedDevices(w, machineId) <==> (machineId, d) in w.subscriptions {
      if (machineId, d) in w.subscriptions {
        var x := (machineId, d);
        assert x in w.subscriptions && x.0 == machineId && x.1 == d;
      }
    }
    if AboutMachine(w, r, machineId, SubscribedDevices(w, machineId)) {
      var d := if r.key.NoteKey? && r.key.note < |w.notes| && w.notes[r.key.note].machineId == Some(machineId)
                  && r.key.device in SubscribedDevices(w, machineId) then r.key.device
               else match r.target
                    case DeviceTarget(x) => x
                    case ActivityTarget(b) => w.bindings[b].device;
      assert (machineId, d) in w.subscriptions && IsAbout(w, r, machineId, d);
    }
  }

  /** Exactly the pushes that wait for a subscriber because of the machine go, its subscriptions, and the activities of its runs. */
  lemma {:induction false} RevokingWithdraws(s: Settings, w: World, machineId: string, now: int)
    ensures var after := Next(s, w, Tick(RevokeMachine(machineId), now));
            && SameBut(w, after) && after.devices == w.devices
            && (forall i :: 0 <= i < |w.rows| ==> CancelledIf(w.rows[i], after.rows[i], AboutSubscriber(w, w.rows[i], machineId), now))
            && (forall b :: 0 <= b < |w.bindings| ==>
                  InvalidIf(w.bindings[b], after.bindings[b], RunsOn(w, w.bindings[b].runId, machineId) && !w.bindings[b].invalidated))
            && (forall m, d :: (m, d) in after.subscriptions <==> (m, d) in w.subscriptions && m != machineId)
  {
    var after := Next(s, w, Tick(RevokeMachine(machineId), now));
    forall i | 0 <= i < |w.rows| ensures CancelledIf(w.rows[i], after.rows[i], AboutSubscriber(w, w.rows[i], machineId), now) {
      AboutSubscribed(w, w.rows[i], machineId);
    }
  }

  /**
   Exactly the pushes that wait for the device go, its activities, its subscriptions and its
   tokens, so that no row at all can be sent to it.
   */
  lemma {:induction false} ResetWithdraws(s: Settings, w: World, device: nat, now: int)
    requires device < |w.devices|
    ensures var after := Next(s, w, Tick(ResetDevice(device), now));
            && SameBut(w, after)
            && (forall i :: 0 <= i < |w.rows| ==> CancelledIf(w.rows[i], after.rows[i], GoesTo(w, w.rows[i], device), now))
            && (forall b :: 0 <= b < |w.bindings| ==> InvalidIf(w.bindings[b], after.bindings[b], w.bindings[b].device == device))
            && (forall m, d :: (m, d) in after.subscriptions <==> (m, d) in w.subscriptions && d != device)
            && (forall d :: 0 <= d < |w.devices| && d != device ==> after.devices[d] == w.devices[d])
            && after.devices[device] == w.devices[device].(startToken := false, noteToken := false)
            && (forall r: Row :: GoesTo(after, r, device) ==> !HasToken(after, r))
  {
    var after := Next(s, w, Tick(ResetDevice(device), now));
    forall r: Row | GoesTo(after, r, device) ensures !HasToken(after, r) {
      match r.target
      case DeviceTarget(_) =>
      case ActivityTarget(b) => assert w.bindings[b].device == device;
    }
  }
}
