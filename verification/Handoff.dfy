/**
 How the command-line process hands a run over to its Worker
 (cli/src/runbuoy/cli/app.py: run_command, _await_worker_handoff, _mark_run_lost;
 cli/src/runbuoy/worker/runtime.py: Worker.run, socket_handler, _wait_for_handoff,
 _run_target).

 Two processes share the local row of the run, its event log, a handoff file and a
 socket.  A step is one statement that another process can see or interrupt: a
 transaction of the store, a look at shared state, a request or a reply.  Clocks,
 system calls and the store may fail at any time; either process may die at any time.
 */
module Handoff {
  import opened Wrappers
  import opened Events
  import opened Queue
  import Adapters

  // The shared store, reduced to one run.

  datatype Local = Local(run: LocalRun, log: seq<Event>)

  function NewEvent(l: Local, kind: EventType, payload: Payload, at: int, id: Uuid): Event {
    Event(id, l.run.id, l.run.machineId, NextSeq(l.log), kind, at, payload)
  }

  function Extended(l: Local, kind: EventType, payload: Payload, at: int, id: Uuid): Local {
    var e := NewEvent(l, kind, payload, at, id);
    Local(LocalApply(l.run, e), l.log + [e])
  }

  /** An event with the key and the time that the store gives it; `works` says whether the database can be written. */
  datatype Stamp = Stamp(works: bool, at: int, id: Uuid)

  /** `append_event` succeeds. */
  predicate Appends(l: Local, stamp: Stamp) {
    stamp.works && !IsTerminal(l.run.status)
  }

  function AppendedIf(l: Local, kind: EventType, payload: Payload, stamp: Stamp): Local {
    if Appends(l, stamp) then Extended(l, kind, payload, stamp.at, stamp.id) else l
  }

  // Payloads.

  function TextPayload(text: string): Payload {
    EMPTY_PAYLOAD.(message := Present(Some(text)))
  }

  function EndPayload(code: int, reason: Option<string>, text: string): Payload {
    EMPTY_PAYLOAD.(exitCode := Present(Some(code)), message := Present(Some(text)),
                   reason := if reason.Some? then Present(reason) else Absent)
  }

  function ProgressPayload(progress: Progress, phase: Option<string>, text: Option<string>): Payload {
    EMPTY_PAYLOAD.(progress := Present(Some(progress)),
                   phase := if phase.Some? then Present(phase) else Absent,
                   message := if text.Some? then Present(text) else Absent)
  }

  // The Worker's socket.

  datatype Request =
    | HandoffAck(nonce: string)
    | Cancel
    | ReportProgress(current: real, total: real, detail: string, shownPhase: Option<string>, shownText: Option<string>)
    | ReportPhase(phase: string)
    | ReportMessage(text: string)
    | AskAttention(attention: Attention, text: string)
    | Malformed

  datatype Flags = Flags(ack: bool, cancel: bool, lastExplicit: real)

  datatype Served = Served(ok: bool, flags: Flags, local: Local)

  function ServedEvent(l: Local, f: Flags, kind: EventType, payload: Payload, stamp: Stamp): Served {
    Served(Appends(l, stamp), f, AppendedIf(l, kind, payload, stamp))
  }

  /** `socket_handler` */
  function Handled(l: Local, f: Flags, nonce: string, request: Request, stamp: Stamp): Served {
    match request
    case HandoffAck(sent) => if sent == nonce then Served(true, f.(ack := true), l) else Served(false, f, l)
    case Cancel => Served(true, f.(cancel := true), l)
    case ReportProgress(current, total, detail, phase, text) =>
      if current < f.lastExplicit || total <= 0.0 then Served(false, f, l)
      else
        var clamped := Adapters.Clamped(current, total);
        ServedEvent(l, f.(lastExplicit := clamped), RunProgress, ProgressPayload(Progress(Some(clamped / total), detail), phase, text), stamp)
    case ReportPhase(phase) => ServedEvent(l, f, RunPhaseChanged, EMPTY_PAYLOAD.(phase := Present(Some(phase))), stamp)
    case ReportMessage(text) => ServedEvent(l, f, RunMessage, TextPayload(text), stamp)
    case AskAttention(attention, text) =>
      if attention.NONE? then Served(false, f, l)
      else ServedEvent(l, f, RunAttentionRequired, TextPayload(text).(attention := Present(Some(attention))), stamp)
    case Malformed => Served(false, f, l)
  }

  // The two processes.

  /** Where the command-line process is; `item` is the row that it last read. */
  datatype Cli =
    | Launching
    | Polling(acked: bool)
    | Checking(item: LocalRun)
    | AwaitingReply(item: LocalRun)
    | Failing(acked: bool)
    | MarkingLost
    | Succeeded(item: LocalRun)
    | GaveUp(acked: bool)
    | Killed

  datatype Worker =
    | Unborn
    | OpeningSocket | EmittingStarting | Preparing | Waiting | Examining | Acknowledging | Spawning | Recording | Announcing
    | Supervising | Draining | Ending(kind: EventType, code: int)
    | Signalling | Caught | Reporting(beforeHandoff: bool)
    | Closing | Closed | Died

  /** The process that runs the command, and the code it has exited with; a negative one for a signal. */
  datatype Target = NotSpawned | Alive | Signalled | Gone(code: int)

  datatype HandoffFile = Missing | Ready | Acknowledged

  /**
   `inFlight`: the command-line process has sent its acknowledgement and the Worker has
   not yet read it.  `reply`: the answer to it.  `refused`: the Worker has spawned the
   target and could not record that the run started.
   */
  datatype State = State(
    local: Local, cli: Cli, worker: Worker, flags: Flags, serving: bool, nonce: string,
    file: HandoffFile, inFlight: bool, reply: Option<bool>, target: Target, refused: bool)

  function Begin(run: LocalRun, payload: Payload, id: Uuid, nonce: string): State {
    State(Extended(Local(run, []), RunCreated, payload, run.updatedAt, id), Launching, Unborn, Flags(false, false, -1.0), false,
          nonce, Missing, false, None, NotSpawned, false)
  }

  datatype CliStep =
    | Launch(ok: bool)
    | TimeOut
    | StoreFails
    | Look
    | CheckFails
    | CheckAgain
    | SendAck
    | ReadReply
    | LoseReply
    | SendCancel
    | LookAgain
    | MarkLost(stamp: Stamp)
    | Kill

  datatype WorkerStep =
    | Open(ok: bool)
    | EmitStarting(stamp: Stamp)
    | Prepare(ok: bool)
    | WakeUp
    | Examine(expired: bool)
    | Acknowledge(ok: bool)
    | Spawn(ok: bool)
    | Record(ok: bool)
    | Announce(stamp: Stamp)
    | Report(kind: EventType, payload: Payload, stamp: Stamp)
    | Break
    | Interrupt
    | Leave
    | Judge
    | EmitEnd(stamp: Stamp)
    | Reap
    | Catch
    | EmitFailure(stamp: Stamp)
    | Close
    | Die

  datatype Step =
    | OfCli(c: CliStep)
    | OfWorker(w: WorkerStep)
    | Serve(request: Request, stamp: Stamp, ours: bool)
    | Terminate
    | TargetExits(code: int)

  predicate CliEnabled(s: State, step: CliStep) {
    match step
    case Launch(_) => s.cli.Launching?
    case TimeOut => s.cli.Polling?
    case StoreFails => s.cli.Polling?
    case Look => s.cli.Polling?
    case CheckFails => s.cli.Checking?
    case CheckAgain => s.cli.Checking?
    case SendAck => s.cli.Checking? && s.file.Ready?
    case ReadReply => s.cli.AwaitingReply? && s.reply.Some?
    case LoseReply => s.cli.AwaitingReply?
    case SendCancel => s.cli == Failing(true)
    case LookAgain => s.cli == Failing(false)
    case MarkLost(_) => s.cli.MarkingLost?
    case Kill => !s.cli.Succeeded? && !s.cli.GaveUp? && !s.cli.Killed?
  }

  /** What the command-line process makes of the row it reads. */
  function Looked(item: LocalRun, acked: bool): Cli {
    if IsTerminal(item.status) then
      if item.startedAt.Some? then Succeeded(item) else Failing(acked)
    else if !acked then Checking(item)
    else if item.status == RUNNING then Succeeded(item)
    else Polling(true)
  }

  /** `_await_worker_handoff`, and what `run_command` does when it fails. */
  function CliNext(s: State, step: CliStep): State
    requires CliEnabled(s, step)
  {
    match step
    case Launch(ok) =>
      s.(cli := if ok then Polling(false) else Failing(false), worker := if ok then OpeningSocket else s.worker)
    case TimeOut => s.(cli := Failing(s.cli.acked))
    // The error of the store does not say that the run was acknowledged.
    case StoreFails => s.(cli := Failing(false))
    case Look => s.(cli := Looked(s.local.run, s.cli.acked))
    case CheckFails => s.(cli := Failing(false))
    case CheckAgain => s.(cli := Polling(false))
    case SendAck => s.(cli := AwaitingReply(s.cli.item), inFlight := true)
    case ReadReply =>
      s.(cli := if !s.reply.value then Failing(false)
                else if s.cli.item.status == RUNNING then Succeeded(s.cli.item)
                else Polling(true))
    case LoseReply => s.(cli := Failing(false))
    case SendCancel => s.(cli := GaveUp(true))
    case LookAgain => s.(cli := if IsTerminal(s.local.run.status) then GaveUp(false) else MarkingLost)
    case MarkLost(stamp) =>
      s.(local := AppendedIf(s.local, RunLost, EndPayload(125, Some("worker_handoff_failed"), "Local Worker handoff failed"), stamp),
         cli := if stamp.works then GaveUp(false) else Killed)
    case Kill => s.(cli := Killed)
  }

  /** A progress event or a heartbeat. */
  predicate IsReport(kind: EventType, payload: Payload) {
    (kind.RunProgress? || kind.RunHeartbeat?) && payload.exitCode.Absent?
  }

  predicate Running(w: Worker) {
    !w.Unborn? && !w.Closed? && !w.Died?
  }

  predicate WorkerEnabled(s: State, step: WorkerStep) {
    match step
    case Open(_) => s.worker.OpeningSocket?
    case EmitStarting(_) => s.worker.EmittingStarting?
    case Prepare(_) => s.worker.Preparing?
    case WakeUp => s.worker.Waiting?
    case Examine(_) => s.worker.Examining?
    case Acknowledge(_) => s.worker.Acknowledging?
    case Spawn(_) => s.worker.Spawning?
    case Record(_) => s.worker.Recording?
    case Announce(_) => s.worker.Announcing?
    case Report(kind, payload, _) => (s.worker.Supervising? || s.worker.Draining?) && IsReport(kind, payload)
    case Break => s.worker.Supervising? || s.worker.Draining?
    case Interrupt => s.worker.Supervising? && s.flags.cancel && s.target.Alive?
    case Leave => s.worker.Supervising? && s.target.Gone?
    case Judge => s.worker.Draining? && s.target.Gone?
    case EmitEnd(_) => s.worker.Ending?
    case Reap => s.worker.Signalling? && s.target.Gone?
    case Catch => s.worker.Caught?
    case EmitFailure(_) => s.worker.Reporting?
    case Close => s.worker.Closing?
    case Die => Running(s.worker)
  }

  /** How a target ended: the kind of event and the exit code that is reported. */
  function Verdict(cancelled: bool, code: int): Worker {
    if cancelled then Ending(RunCancelled, if code < 0 then 130 else code)
    else if code == 0 then Ending(RunSucceeded, 0)
    else Ending(RunFailed, code)
  }

  function EndReason(kind: EventType): Option<string> {
    if kind.RunCancelled? then Some("local_cancel") else None
  }

  /** `run` up to the acknowledgement. */
  function BeforeTarget(s: State, step: WorkerStep): State
    requires WorkerEnabled(s, step)
    requires step.Open? || step.EmitStarting? || step.Prepare? || step.WakeUp? || step.Examine? || step.Acknowledge?
  {
    match step
    case Open(ok) => s.(serving := ok, worker := if ok then EmittingStarting else Caught)
    case EmitStarting(stamp) =>
      s.(local := AppendedIf(s.local, RunStarting, TextPayload("Preparing local process"), stamp),
         worker := if Appends(s.local, stamp) then Preparing else Caught)
    case Prepare(ok) => s.(file := if ok then Ready else s.file, worker := if ok then Waiting else Caught)
    case WakeUp => s.(worker := if s.flags.ack then Acknowledging else Examining)
    case Examine(expired) => s.(worker := if s.flags.cancel || s.local.run.status == LOST || expired then Caught else Waiting)
    case Acknowledge(ok) => s.(file := if ok then Acknowledged else s.file, worker := if ok then Spawning else Caught)
  }

  /** `_run_target` up to the event that says that it runs. */
  function StartTarget(s: State, step: WorkerStep): State
    requires WorkerEnabled(s, step)
    requires step.Spawn? || step.Record? || step.Announce? || step.Reap?
  {
    match step
    case Spawn(ok) => s.(target := if ok then Alive else s.target, worker := if ok then Recording else Caught)
    case Record(ok) => s.(worker := if ok then Announcing else Caught)
    case Announce(stamp) =>
      if Appends(s.local, stamp) then
        s.(local := Extended(s.local, RunStarted, TextPayload("Run started"), stamp.at, stamp.id), worker := Supervising)
      else
        s.(flags := s.flags.(cancel := true), target := if s.target.Alive? then Signalled else s.target, refused := true, worker := Signalling)
    case Reap => s.(worker := Caught)
  }

  /** The supervision loop and the end of the target. */
  function Supervise(s: State, step: WorkerStep): State
    requires WorkerEnabled(s, step)
    requires step.Report? || step.Break? || step.Interrupt? || step.Leave? || step.Judge? || step.EmitEnd?
  {
    match step
    case Report(kind, payload, stamp) =>
      s.(local := AppendedIf(s.local, kind, payload, stamp), worker := if Appends(s.local, stamp) then s.worker else Caught)
    case Break => s.(worker := Caught)
    case Interrupt => s.(target := Signalled)
    case Leave => s.(worker := Draining)
    case Judge => s.(worker := Verdict(s.flags.cancel, s.target.code))
    case EmitEnd(stamp) =>
      s.(local := AppendedIf(s.local, s.worker.kind, EndPayload(s.worker.code, EndReason(s.worker.kind), "Run ended"), stamp),
         worker := if Appends(s.local, stamp) then Closing else Caught)
  }

  /** The error path of `run`, its `finally`, and a crash. */
  function Finish(s: State, step: WorkerStep): State
    requires WorkerEnabled(s, step)
    requires step.Catch? || step.EmitFailure? || step.Close? || step.Die?
  {
    match step
    case Catch => s.(worker := Reporting(!s.flags.ack))
    case EmitFailure(stamp) =>
      var payload := if s.worker.beforeHandoff then EndPayload(125, Some("handoff_failed"), "Worker handoff failed")
                     else EndPayload(127, Some("worker_error"), "Worker failed");
      s.(local := AppendedIf(s.local, if s.worker.beforeHandoff then RunLost else RunFailed, payload, stamp), worker := Closing)
    case Close => s.(serving := false, worker := Closed)
    case Die => s.(serving := false, worker := Died)
  }

  function WorkerNext(s: State, step: WorkerStep): State
    requires WorkerEnabled(s, step)
  {
    match step
    case Open(_) => BeforeTarget(s, step)
    case EmitStarting(_) => BeforeTarget(s, step)
    case Prepare(_) => BeforeTarget(s, step)
    case WakeUp => BeforeTarget(s, step)
    case Examine(_) => BeforeTarget(s, step)
    case Acknowledge(_) => BeforeTarget(s, step)
    case Spawn(_) => StartTarget(s, step)
    case Record(_) => StartTarget(s, step)
    case Announce(_) => StartTarget(s, step)
    case Reap => StartTarget(s, step)
    case Catch => Finish(s, step)
    case EmitFailure(_) => Finish(s, step)
    case Close => Finish(s, step)
    case Die => Finish(s, step)
    case _ => Supervise(s, step)
  }

  predicate Enabled(s: State, step: Step) {
    match step
    case OfCli(c) => CliEnabled(s, c)
    case OfWorker(w) => WorkerEnabled(s, w)
    case Serve(request, _, ours) => s.serving && (ours ==> s.inFlight && request == HandoffAck(s.nonce))
    case Terminate => Running(s.worker)
    case TargetExits(_) => s.target.Alive? || s.target.Signalled?
  }

  function AfterServing(s: State, request: Request, stamp: Stamp, ours: bool): State {
    var served := Handled(s.local, s.flags, s.nonce, request, stamp);
    s.(local := served.local, flags := served.flags,
       inFlight := s.inFlight && !ours, reply := if ours then Some(served.ok) else s.reply)
  }

  function Next(s: State, step: Step): State
    requires Enabled(s, step)
  {
    match step
    case OfCli(c) => CliNext(s, c)
    case OfWorker(w) => WorkerNext(s, w)
    case Serve(request, stamp, ours) => AfterServing(s, request, stamp, ours)
    case Terminate => s.(flags := s.flags.(cancel := true))
    case TargetExits(code) => s.(target := Gone(code))
  }

  /** A history that can happen, and where it ends. */
  ghost predicate Possible(s: State, steps: seq<Step>)
    decreases |steps|
  {
    steps == [] || (Enabled(s, steps[0]) && Possible(Next(s, steps[0]), steps[1..]))
  }

  ghost function After(s: State, steps: seq<Step>): State
    requires Possible(s, steps)
    decreases |steps|
  {
    if steps == [] then s else After(Next(s, steps[0]), steps[1..])
  }

  ghost predicate IsBegin(s: State) {
    exists run: LocalRun, payload: Payload, id: Uuid, nonce: string ::
      run == NewLocalRun(run.id, run.machineId, run.title, run.source, run.policy, run.updatedAt)
      && payload.exitCode.Absent? && s == Begin(run, payload, id, nonce)
  }
}
