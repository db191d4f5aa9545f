/**
 The daily quota of notifications (server/app/abuse.py: enforce_notification_daily_quota):
 a bucket per workspace and day, whose increment stays only if the notification is made.
 */
module OutboxQuota {
  import opened Wrappers
  import opened Events
  import opened Ingest
  import opened Outbox
  import opened OutboxRuns
  import opened OutboxLaws

  const DAY := 24 * 60 * 60

  /** The buckets by workspace and day. */
  type Buckets = map<(string, int), nat>

  function DayOf(now: int): int {
    Seconds(now) / DAY
  }

  function Spent(buckets: Buckets, workspaceId: string, day: int): nat {
    if (workspaceId, day) in buckets then buckets[(workspaceId, day)] else 0
  }

  /** The workspace whose quota a step may use, and whether the step takes the quota to be enough. */
  function Asks(w: World, t: Tick): Option<(string, bool)>
    requires Enabled(w, t)
  {
    match t.step
    case AcceptEvent(e, quota) => Some((w.runs[e.runId].workspaceId, quota))
    case RenameMachine(runId, quota) => Some((w.runs[runId].workspaceId, quota))
    case Notify(note, quota) => Some((note.workspaceId, quota))
    case _ => None
  }

  /** The step is told what the bucket says: the increment must not exceed the limit. */
  predicate Told(limit: nat, w: World, t: Tick, buckets: Buckets)
    requires Enabled(w, t)
  {
    match Asks(w, t)
    case Some((workspaceId, quota)) => quota <==> Spent(buckets, workspaceId, DayOf(t.now)) + 1 <= limit
    case None => true
  }

  /** The buckets after a step: an increment without a notification is rolled back. */
  function Booked(s: Settings, w: World, t: Tick, buckets: Buckets): Buckets
    requires Enabled(w, t)
  {
    match Asks(w, t)
    case Some((workspaceId, _)) =>
      if |Next(s, w, t).notes| > |w.notes|
      then buckets[(workspaceId, DayOf(t.now)) := Spent(buckets, workspaceId, DayOf(t.now)) + 1]
      else buckets
    case None => buckets
  }

  /** A history in which every step is told what the buckets say. */
  ghost predicate WithinQuota(s: Settings, limit: nat, w: World, ticks: seq<Tick>, buckets: Buckets)
    decreases |ticks|
  {
    ticks == [] || (Enabled(w, ticks[0]) && Told(limit, w, ticks[0], buckets)
                    && WithinQuota(s, limit, Next(s, w, ticks[0]), ticks[1..], Booked(s, w, ticks[0], buckets)))
  }

  ghost function BookedAll(s: Settings, w: World, ticks: seq<Tick>, buckets: Buckets): Buckets
    requires Possible(s, w, ticks)
    decreases |ticks|
  {
    if ticks == [] then buckets else BookedAll(s, Next(s, w, ticks[0]), ticks[1..], Booked(s, w, ticks[0], buckets))
  }

  // Notifications made.

  function NotesOf(notes: seq<Note>, workspaceId: string): nat {
    if notes == [] then 0
    else NotesOf(notes[..|notes| - 1], workspaceId) + if notes[|notes| - 1].workspaceId == workspaceId then 1 else 0
  }

  /** The notifications that a history makes for a workspace on a day. */
  ghost function Made(s: Settings, w: World, ticks: seq<Tick>, workspaceId: string, day: int): int
    requires Possible(s, w, ticks)
    decreases |ticks|
  {
    if ticks == [] then 0
    else
      var next := Next(s, w, ticks[0]);
      (if DayOf(ticks[0].now) == day then NotesOf(next.notes, workspaceId) - NotesOf(w.notes, workspaceId) else 0)
      + Made(s, next, ticks[1..], workspaceId, day)
  }

  /** One more notification, for the workspace that was asked and granted. */
  predicate AddsNote(before: seq<Note>, after: seq<Note>, asked: Option<(string, bool)>) {
    && asked.Some? && asked.value.1 && |after| == |before| + 1 && after[..|before|] == before
    && after[|before|].workspaceId == asked.value.0
  }

  lemma {:induction false} ScheduledNotes(s: Settings, w: World, run: Run, cause: Cause, previous: Option<Progress>, quota: bool, now: int)
    ensures var after := Scheduled(s, w, run, cause, previous, quota, now).notes;
            after == w.notes || AddsNote(w.notes, after, Some((run.workspaceId, quota)))
  {
    if !Starts(cause) && IsTerminal(run.status) {
      FallbackStep(s, w, run, cause, previous, quota, now);
    }
  }

  /** A step makes no notification, or one. */
  lemma {:induction false} NotesStep(s: Settings, w: World, t: Tick)
    requires Enabled(w, t)
    ensures Next(s, w, t).notes == w.notes || AddsNote(w.notes, Next(s, w, t).notes, Asks(w, t))
  {
    match t.step
    case AcceptEvent(e, quota) =>
      var run := Apply(w.runs[e.runId], e);
      ScheduledNotes(s, w.(runs := w.runs[e.runId := run]), run, ByEvent(e.kind), w.runs[e.runId].progress, quota, t.now);
    case RenameMachine(runId, quota) =>
      ScheduledNotes(s, w, w.runs[runId], MachineRenamed, w.runs[runId].progress, quota, t.now);
    case ProcessOne(i, outcome) =>
      ProcessedNotes(s, w, i, outcome, t.now);
    case _ =>
  }

  lemma ProcessedNotes(s: Settings, w: World, i: nat, outcome: Outcome, now: int)
    requires i < |w.rows|
    ensures Processed(s, w, i, outcome, now).notes == w.notes
  {
  }

  lemma {:induction false} BookedStep(s: Settings, limit: nat, w: World, t: Tick, buckets: Buckets, workspaceId: string, day: int)
    requires Enabled(w, t) && Told(limit, w, t, buckets)
    ensures Spent(Booked(s, w, t, buckets), workspaceId, day)
            == Spent(buckets, workspaceId, day)
               + if DayOf(t.now) == day then NotesOf(Next(s, w, t).notes, workspaceId) - NotesOf(w.notes, workspaceId) else 0
    ensures Spent(buckets, workspaceId, day) <= limit ==> Spent(Booked(s, w, t, buckets), workspaceId, day) <= limit
  {
    NotesStep(s, w, t);
  }

  /**
   The bucket of a workspace and day counts the notifications made for it that day, and
   they are never more than the limit.
   */
  lemma {:induction false} QuotaHolds(s: Settings, limit: nat, w: World, ticks: seq<Tick>, buckets: Buckets, workspaceId: string, day: int)
    requires WithinQuota(s, limit, w, ticks, buckets) && Spent(buckets, workspaceId, day) <= limit
    ensures Possible(s, w, ticks)
    ensures Spent(BookedAll(s, w, ticks, buckets), workspaceId, day)
            == Spent(buckets, workspaceId, day) + Made(s, w, ticks, workspaceId, day) <= limit
    decreases |ticks|
  {
    if ticks != [] {
      var next := Next(s, w, ticks[0]);
      BookedStep(s, limit, w, ticks[0], buckets, workspaceId, day);
      QuotaHolds(s, limit, next, ticks[1..], Booked(s, w, ticks[0], buckets), workspaceId, day);
    }
  }

  /**
   When a run fails or is lost, the user was told by an activity that was started, or by
   exactly one fallback notification, or the workspace has had as many notifications that
   day as the limit allows; a fallback is made exactly if there is no started activity, no
   earlier fallback, and the limit is not reached.
   */
  lemma {:induction false} FailureIsToldWithinQuota(s: Settings, limit: nat, ticks: seq<Tick>, t: Tick)
    requires s.maxAttempts >= 1 && WithinQuota(s, limit, EMPTY, ticks, map[]) && Possible(s, EMPTY, ticks)
    requires var w := After(s, EMPTY, ticks); Enabled(w, t) && Told(limit, w, t, BookedAll(s, EMPTY, ticks, map[]))
    requires t.step.AcceptEvent? && (t.step.e.kind == RunFailed || t.step.e.kind == RunLost)
    ensures var w := After(s, EMPTY, ticks);
            var after, run := Next(s, w, t), w.runs[t.step.e.runId];
            var fallback := Fallback(run.id);
            var made := Made(s, EMPTY, ticks, run.workspaceId, DayOf(t.now));
            && (StartSent(after.rows, run.id) || CountNotes(after.notes, run.workspaceId, fallback) == 1 || made == limit)
            && (|after.notes| > |w.notes| <==>
                  !StartSent(w.rows, run.id) && CountNotes(w.notes, run.workspaceId, fallback) == 0 && made < limit)
  {
    var w, e := After(s, EMPTY, ticks), t.step.e;
    var run := w.runs[e.runId];
    QuotaHolds(s, limit, EMPTY, ticks, map[], run.workspaceId, DayOf(t.now));
    FailureIsTold(s, ticks, t);
    ApplyKeepsId(run, e);
    FallbackStep(s, w.(runs := w.runs[e.runId := Apply(run, e)]), Apply(run, e), ByEvent(e.kind), run.progress, t.step.quota, t.now);
    EmptyFits(s);
    HistoryKeeps(s, EMPTY, ticks);
    AtMostOneNote(w.notes, run.workspaceId, Fallback(run.id));
  }
}
