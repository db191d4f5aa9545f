/** The Worker's socket handler as it runs (cli/src/runbuoy/worker/runtime.py: emit, on_progress, socket_handler). */
module WorkerSocket {
  import opened Wrappers
  import opened Events
  import opened Queue
  import opened Handoff
  import opened HandoffSafety

  class Worker {
    var run: LocalRun
    var log: seq<Event>
    var handoffAck: bool
    var cancelRequested: bool
    var lastExplicitCurrent: real
    const nonce: string

    constructor (run: LocalRun, log: seq<Event>, nonce: string)
      ensures Shared() == Local(run, log) && this.nonce == nonce
      ensures CurrentFlags() == Flags(false, false, -1.0)
    {
      this.run, this.log, this.nonce := run, log, nonce;
      handoffAck, cancelRequested, lastExplicitCurrent := false, false, -1.0;
    }

    function Shared(): Local
      reads this
    {
      Local(run, log)
    }

    function CurrentFlags(): Flags
      reads this
    {
      Flags(handoffAck, cancelRequested, lastExplicitCurrent)
    }

    /** The store refuses events of a run that has ended. */
    method Emit(kind: EventType, payload: Payload, stamp: Stamp) returns (ok: bool)
      modifies this`run, this`log
      ensures ok == Appends(old(Shared()), stamp)
      ensures Shared() == AppendedIf(old(Shared()), kind, payload, stamp)
    {
      if !stamp.works || IsTerminal(run.status) {
        return false;
      }
      var e := Event(stamp.id, run.id, run.machineId, NextSeq(log), kind, stamp.at, payload);
      log, run := log + [e], LocalApply(run, e);
      return true;
    }

    method OnExplicitProgress(request: Request, stamp: Stamp) returns (ok: bool)
      requires request.ReportProgress?
      modifies this`run, this`log, this`lastExplicitCurrent
      ensures Served(ok, CurrentFlags(), Shared()) == Handled(old(Shared()), old(CurrentFlags()), nonce, request, stamp)
    {
      if request.current < lastExplicitCurrent || request.total <= 0.0 {
        return false;
      }
      var current := if request.current < 0.0 then 0.0 else request.current;
      if current > request.total { current := request.total; }
      lastExplicitCurrent := current;
      ok := Emit(RunProgress, ProgressPayload(Progress(Some(current / request.total), request.detail), request.shownPhase, request.shownText), stamp);
    }

    /** `socket_handler`; the log keeps its shape whatever is sent. */
    method SocketHandler(request: Request, stamp: Stamp) returns (ok: bool)
      modifies this
      ensures Served(ok, CurrentFlags(), Shared()) == Handled(old(Shared()), old(CurrentFlags()), nonce, request, stamp)
      ensures old(LogHolds(Shared())) ==> LogHolds(Shared())
    {
      if LogHolds(Shared()) { HandledKeepsLog(Shared(), CurrentFlags(), nonce, request, stamp); }
      match request
      case HandoffAck(sent) =>
        ok := sent == nonce;
        if ok { handoffAck := true; }
      case Cancel =>
        ok, cancelRequested := true, true;
      case ReportProgress(_, _, _, _, _) =>
        ok := OnExplicitProgress(request, stamp);
      case ReportPhase(phase) =>
        ok := Emit(RunPhaseChanged, EMPTY_PAYLOAD.(phase := Present(Some(phase))), stamp);
      case ReportMessage(text) =>
        ok := Emit(RunMessage, TextPayload(text), stamp);
      case AskAttention(attention, text) =>
        if attention.NONE? {
          return false;
        }
        ok := Emit(RunAttentionRequired, TextPayload(text).(attention := Present(Some(attention))), stamp);
      case Malformed =>
        ok := false;
    }
  }
}
