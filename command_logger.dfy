/**
 * The execution logger that the context-aware command executor wraps around a
 * freshly created command log: an in-memory record holding a status and the
 * ordered lines appended to it. Persistence and the forwarding of every line to
 * the process-wide logger are not modelled.
 */
module CommandLogging {

  /** Identity of one persisted command log record. */
  type LogId = nat

  datatype Status = Pending | Running | Completed | Failed {
    predicate IsTerminal() { this == Completed || this == Failed }
  }

  datatype Level = InfoLevel | ErrorLevel

  datatype LogLine = LogLine(level: Level, message: string)

  /** The observable content of a command log: its status and its lines, oldest first. */
  datatype LogRecord = LogRecord(status: Status, lines: seq<LogLine>)

  /** The record a freshly created command log starts from. */
  const FreshRecord := LogRecord(Pending, [])

  /** A logger bound to exactly one command log record. */
  class CommandLogger {
    const log: LogId
    var status: Status
    var lines: seq<LogLine>

    function Record(): (r: LogRecord)
      reads this
      ensures r.status == status && r.lines == lines
    {
      LogRecord(status, lines)
    }

    constructor (log: LogId)
      ensures this.log == log && Record() == FreshRecord
    {
      this.log := log;
      status := Pending;
      lines := [];
    }

    method Info(message: string)
      modifies this
      ensures status == old(status)
      ensures lines == old(lines) + [LogLine(InfoLevel, message)]
    {
      lines := lines + [LogLine(InfoLevel, message)];
    }

    method Error(message: string)
      modifies this
      ensures status == old(status)
      ensures lines == old(lines) + [LogLine(ErrorLevel, message)]
    {
      lines := lines + [LogLine(ErrorLevel, message)];
    }

    /** Finalizing a log a second time is a programming error, hence the precondition. */
    method MarkAsCompleted()
      requires !status.IsTerminal()
      modifies this
      ensures status == Completed && lines == old(lines)
    {
      status := Completed;
    }

    method MarkAsFailed()
      requires !status.IsTerminal()
      modifies this
      ensures status == Failed && lines == old(lines)
    {
      status := Failed;
    }
  }
}
