/**
 * The context-aware command executor: for one contextual command it creates a
 * command log and a logger bound to it, attaches that logger to the concrete
 * command, delegates to the command executor, optionally post-processes the
 * result, finalizes the log exactly once, logs a classification of any failure
 * and rethrows the original error.
 *
 * Every collaborator (log creation, creation of the concrete command, the
 * command executor, the result post-processor) is an input: the outcome each
 * of them produces is part of the arguments.
 */
module ContextAwareExecution {
  import opened Errors
  import opened CommandLogging

  /** The result the command executor resolves with. */
  type Value = string

  /** What the command executor can observe of the concrete command it runs. */
  datatype CommandView = CommandView(description: string, commandLogger: Option<LogId>)

  /** The concrete command produced by a contextual command; its logger is attached after construction. */
  class WrappedCommand {
    const description: string
    var commandLogger: CommandLogger?

    constructor (description: string)
      ensures this.description == description && commandLogger == null
    {
      this.description := description;
      commandLogger := null;
    }

    function View(): (v: CommandView)
      reads this
      ensures v.description == description
      ensures v.commandLogger.Some? <==> commandLogger != null
      ensures commandLogger != null ==> v.commandLogger.value == commandLogger.log
    {
      CommandView(description, if commandLogger == null then None else Some(commandLogger.log))
    }
  }

  /**
   * A contextual command, given by what its collaborators do: the log record its
   * `createCommandLog` resolves with (or throws), the concrete command its
   * `createWrappedCommand` builds (or throws), and its optional `processResult`.
   */
  datatype ContextAwareCommand = ContextAwareCommand(
    createCommandLog: Completion<LogId>,
    createWrappedCommand: Completion<string>,
    processResult: Option<Value -> Completion<()>>)

  /** The command executor the component delegates to. */
  datatype CommandExecutorComponent = CommandExecutorComponent(execute: CommandView -> Completion<Value>)

  /** One observable step of an execution, in the order it happens. */
  datatype Event =
    | LogCreated(log: LogId)
    | LoggerAttached(command: CommandView)
    | Delegated(command: CommandView)
    | ResultProcessed(result: Value)
    | MarkedCompleted
    | MarkedFailed
    | Logged(line: LogLine)

  /** What one call of `execute` produces: how it completes and what it did on the way. */
  datatype Run = Run(outcome: Completion<()>, events: seq<Event>)

  const CompletedMessage := "Command completed."
  const FailedMessage := "Command execution failed."

  /**
   * What the runtime throws when `execute` runs before the command executor was
   * set: reading `execute` of `undefined` raises a TypeError inside the try block.
   * The message is the one current V8 runtimes give; older ones word it differently.
   */
  const UnsetExecutorError := OtherError("TypeError", "Cannot read properties of undefined (reading 'execute')")

  /** The error lines logged for a caught value, in the order they are logged. */
  function ClassifyError(error: Thrown): (messages: seq<string>)
    ensures |messages| == (if error.OtherError? then 3 else 1)
    ensures messages[0] == FailedMessage
  {
    match error
    case ExecuteCommandError(_) => [FailedMessage]
    case OtherError(className, message) =>
      [FailedMessage, "Error class: " + className, "Error message '" + message + "'."]
    case NonError(_) => [FailedMessage]
  }

  function ErrorEvents(messages: seq<string>): (events: seq<Event>)
  {
    seq(|messages|, i requires 0 <= i < |messages| => Logged(LogLine(ErrorLevel, messages[i])))
  }

  /** The part of `execute` inside the try block: delegation and post-processing. */
  function TryBlock(command: ContextAwareCommand, executor: Option<CommandExecutorComponent>, view: CommandView): Run
  {
    match executor
    case None => Run(Threw(UnsetExecutorError), [])
    case Some(component) =>
      match component.execute(view)
      case Threw(e) => Run(Threw(e), [Delegated(view)])
      case Normal(result) =>
        match command.processResult
        case None => Run(Normal(()), [Delegated(view)])
        case Some(process) => Run(process(result), [Delegated(view), ResultProcessed(result)])
  }

  /** The specification of `execute`: the complete transcript of one call. */
  function Transcript(command: ContextAwareCommand, executor: Option<CommandExecutorComponent>): Run
  {
    match command.createCommandLog
    case Threw(e) => Run(Threw(e), [])
    case Normal(log) =>
      match command.createWrappedCommand
      case Threw(e) => Run(Threw(e), [LogCreated(log)])
      case Normal(description) =>
        var view := CommandView(description, Some(log));
        var setup := [LogCreated(log), LoggerAttached(view)];
        var body := TryBlock(command, executor, view);
        match body.outcome
        case Normal(_) =>
          Run(Normal(()), setup + body.events + [MarkedCompleted, Logged(LogLine(InfoLevel, CompletedMessage))])
        case Threw(e) =>
          Run(Threw(e), setup + body.events + [MarkedFailed] + ErrorEvents(ClassifyError(e)))
  }

  /** The effect of one event on the command log record. */
  function Apply(record: LogRecord, event: Event): LogRecord
  {
    match event
    case MarkedCompleted => record.(status := Completed)
    case MarkedFailed => record.(status := Failed)
    case Logged(line) => record.(lines := record.lines + [line])
    case _ => record
  }

  /** The command log record after the given events, starting from a freshly created one. */
  function Replay(events: seq<Event>): LogRecord
  {
    if events == [] then FreshRecord
    else Apply(Replay(events[..|events| - 1]), events[|events| - 1])
  }

  lemma ReplaySnoc(events: seq<Event>, event: Event)
    ensures Replay(events + [event]) == Apply(Replay(events), event)
  {
    assert (events + [event])[..|events|] == events;
  }

  /** Delegation and post-processing leave the command log record as it was. */
  lemma ReplayNoLogEffect(events: seq<Event>, body: seq<Event>)
    requires forall i :: 0 <= i < |body| ==> body[i].Delegated? || body[i].ResultProcessed?
    ensures Replay(events + body) == Replay(events)
    decreases |body|
  {
    if body == [] {
      assert events + body == events;
    } else {
      var init, last := body[..|body| - 1], body[|body| - 1];
      assert events + body == (events + init) + [last];
      ReplaySnoc(events + init, last);
      ReplayNoLogEffect(events, init);
      assert last.Delegated? || last.ResultProcessed?;
      assert Apply(Replay(events + init), last) == Replay(events + init);
    }
  }

  /** Once both setup steps succeeded, the transcript is the setup, the try block and its finalization. */
  lemma TranscriptAfterSetup(command: ContextAwareCommand, executor: Option<CommandExecutorComponent>)
    requires command.createCommandLog.Normal? && command.createWrappedCommand.Normal?
    ensures var view := CommandView(command.createWrappedCommand.value, Some(command.createCommandLog.value));
      var setup := [LogCreated(command.createCommandLog.value), LoggerAttached(view)];
      var body := TryBlock(command, executor, view);
      Transcript(command, executor) ==
        if body.outcome.Normal?
        then Run(Normal(()), setup + body.events + [MarkedCompleted, Logged(LogLine(InfoLevel, CompletedMessage))])
        else Run(body.outcome, setup + body.events + [MarkedFailed] + ErrorEvents(ClassifyError(body.outcome.error)))
  {
  }

  class ContextAwareCommandExecutorComponent {
    /** Unset (`undefined`) until the setter is called. */
    var commandExecutorComponent: Option<CommandExecutorComponent>

    constructor ()
      ensures commandExecutorComponent == None
    {
      commandExecutorComponent := None;
    }

    method SetCommandExecutorComponent(component: CommandExecutorComponent)
      modifies this
      ensures commandExecutorComponent == Some(component)
    {
      commandExecutorComponent := Some(component);
    }

    /** Creates the command log and wraps it in a logger bound to it. */
    method CreateCommandLogger(command: ContextAwareCommand) returns (r: Completion<CommandLogger>)
      ensures r.Threw? <==> command.createCommandLog.Threw?
      ensures r.Threw? ==> r.error == command.createCommandLog.error
      ensures r.Normal? ==> fresh(r.value) && r.value.log == command.createCommandLog.value
      ensures r.Normal? ==> r.value.Record() == FreshRecord
    {
      match command.createCommandLog
      case Threw(e) =>
        r := Threw(e);
      case Normal(log) =>
        var logger := new CommandLogger(log);
        r := Normal(logger);
    }

    /** Builds the concrete command and attaches the logger to it. */
    method CreateCommand(command: ContextAwareCommand, logger: CommandLogger) returns (r: Completion<WrappedCommand>)
      ensures r.Threw? <==> command.createWrappedCommand.Threw?
      ensures r.Threw? ==> r.error == command.createWrappedCommand.error
      ensures r.Normal? ==> fresh(r.value) && r.value.commandLogger == logger
      ensures r.Normal? ==> r.value.View() == CommandView(command.createWrappedCommand.value, Some(logger.log))
    {
      match command.createWrappedCommand
      case Threw(e) =>
        r := Threw(e);
      case Normal(description) =>
        var wrapped := new WrappedCommand(description);
        wrapped.commandLogger := logger;
        r := Normal(wrapped);
    }

    /** The try block of `execute`: delegation, then post-processing of the result if the command defines it. */
    method Delegate(command: ContextAwareCommand, wrapped: WrappedCommand) returns (body: Run)
      ensures body == TryBlock(command, commandExecutorComponent, wrapped.View())
    {
      if commandExecutorComponent.None? {
        body := Run(Threw(UnsetExecutorError), []);
        return;
      }
      var view := wrapped.View();
      var result := commandExecutorComponent.value.execute(view);
      body := Run(Normal(()), [Delegated(view)]);
      if result.Threw? {
        body := Run(Threw(result.error), body.events);
      } else if command.processResult.Some? {
        var processed := command.processResult.value(result.value);
        body := Run(processed, body.events + [ResultProcessed(result.value)]);
      }
    }

    /** The end of the try block: finalize the log as completed, then log the success line. */
    method LogSuccess(logger: CommandLogger, events: seq<Event>) returns (after: seq<Event>)
      requires logger.Record() == Replay(events) && !logger.status.IsTerminal()
      modifies logger
      ensures after == events + [MarkedCompleted, Logged(LogLine(InfoLevel, CompletedMessage))]
      ensures logger.Record() == Replay(after)
    {
      logger.MarkAsCompleted();
      ReplaySnoc(events, MarkedCompleted);
      after := events + [MarkedCompleted];
      logger.Info(CompletedMessage);
      ReplaySnoc(after, Logged(LogLine(InfoLevel, CompletedMessage)));
      after := after + [Logged(LogLine(InfoLevel, CompletedMessage))];
    }

    /** The catch block of `execute`: finalize the log as failed, then log the classified lines in order. */
    method LogFailure(logger: CommandLogger, error: Thrown, events: seq<Event>) returns (after: seq<Event>)
      requires logger.Record() == Replay(events) && !logger.status.IsTerminal()
      modifies logger
      ensures after == events + [MarkedFailed] + ErrorEvents(ClassifyError(error))
      ensures logger.Record() == Replay(after)
    {
      logger.MarkAsFailed();
      ReplaySnoc(events, MarkedFailed);
      after := events + [MarkedFailed];
      var messages := ClassifyError(error);
      ghost var before := after;
      for i := 0 to |messages|
        invariant after == before + ErrorEvents(messages[..i])
        invariant logger.Record() == Replay(after)
      {
        logger.Error(messages[i]);
        ReplaySnoc(after, Logged(LogLine(ErrorLevel, messages[i])));
        after := after + [Logged(LogLine(ErrorLevel, messages[i]))];
        assert ErrorEvents(messages[..i + 1]) == ErrorEvents(messages[..i]) + [Logged(LogLine(ErrorLevel, messages[i]))];
      }
      assert messages[..|messages|] == messages;
    }

    /**
     * Runs one contextual command. `events` is the transcript of the call and
     * `record` the final state of the command log it created, if it created one.
     */
    method Execute(command: ContextAwareCommand) returns (outcome: Completion<()>, events: seq<Event>, record: Option<LogRecord>)
      ensures Run(outcome, events) == Transcript(command, commandExecutorComponent)
      ensures record == if command.createCommandLog.Normal? then Some(Replay(events)) else None
    {
      var created := CreateCommandLogger(command);
      if created.Threw? {
        outcome, events, record := Threw(created.error), [], None;
        return;
      }
      var logger := created.value;
      events := [LogCreated(logger.log)];
      ReplaySnoc([], LogCreated(logger.log));
      assert [] + [LogCreated(logger.log)] == events;
      assert logger.Record() == Replay(events);
      var wrapped := CreateCommand(command, logger);
      if wrapped.Threw? {
        outcome, record := Threw(wrapped.error), Some(logger.Record());
        return;
      }
      var view := wrapped.value.View();
      assert view == CommandView(command.createWrappedCommand.value, Some(command.createCommandLog.value));
      ReplaySnoc(events, LoggerAttached(view));
      events := events + [LoggerAttached(view)];
      ghost var setup := events;
      assert logger.Record() == Replay(events);

      var body := Delegate(command, wrapped.value);
      assert body == TryBlock(command, commandExecutorComponent, view);
      ReplayNoLogEffect(events, body.events);
      events := events + body.events;
      assert logger.Record() == Replay(events);

      if body.outcome.Normal? {
        events := LogSuccess(logger, events);
        outcome := Normal(());
      } else {
        events := LogFailure(logger, body.outcome.error, events);
        outcome := body.outcome;
      }
      TranscriptAfterSetup(command, commandExecutorComponent);
      record := Some(logger.Record());
    }
  }

  // ---------------------------------------------------------------------------
  // Properties of the transcript
  // ---------------------------------------------------------------------------

  /** Both setup steps, which run outside the try block, succeeded. */
  predicate SetupSucceeds(command: ContextAwareCommand)
  {
    command.createCommandLog.Normal? && command.createWrappedCommand.Normal?
  }

  /** The concrete command with this call's logger attached, as the command executor sees it. */
  function AttachedView(command: ContextAwareCommand): CommandView
    requires SetupSucceeds(command)
  {
    CommandView(command.createWrappedCommand.value, Some(command.createCommandLog.value))
  }

  function Count(events: seq<Event>, event: Event): nat
  {
    if events == [] then 0 else (if events[0] == event then 1 else 0) + Count(events[1..], event)
  }

  function ErrorLines(messages: seq<string>): seq<LogLine>
  {
    seq(|messages|, i requires 0 <= i < |messages| => LogLine(ErrorLevel, messages[i]))
  }

  lemma {:induction false} CountConcat(a: seq<Event>, b: seq<Event>, event: Event)
    ensures Count(a + b, event) == Count(a, event) + Count(b, event)
    decreases |a|
  {
    if a == [] {
      assert a + b == b;
    } else {
      assert (a + b)[1..] == a[1..] + b;
      CountConcat(a[1..], b, event);
    }
  }

  lemma {:induction false} CountAbsent(events: seq<Event>, event: Event)
    requires forall i :: 0 <= i < |events| ==> events[i] != event
    ensures Count(events, event) == 0
    decreases |events|
  {
    if events != [] {
      CountAbsent(events[1..], event);
    }
  }

  /** Appending error lines leaves the status alone and appends exactly those lines. */
  lemma {:induction false} ReplayErrorEvents(events: seq<Event>, messages: seq<string>)
    ensures Replay(events + ErrorEvents(messages)).status == Replay(events).status
    ensures Replay(events + ErrorEvents(messages)).lines == Replay(events).lines + ErrorLines(messages)
    decreases |messages|
  {
    if messages == [] {
      assert events + ErrorEvents(messages) == events;
    } else {
      var init, last := messages[..|messages| - 1], messages[|messages| - 1];
      assert events + ErrorEvents(messages) == (events + ErrorEvents(init)) + [Logged(LogLine(ErrorLevel, last))];
      ReplaySnoc(events + ErrorEvents(init), Logged(LogLine(ErrorLevel, last)));
      ReplayErrorEvents(events, init);
      assert ErrorLines(messages) == ErrorLines(init) + [LogLine(ErrorLevel, last)];
    }
  }

  /** The try block's events are only the delegation and the post-processing. */
  lemma TryBlockEvents(command: ContextAwareCommand, executor: Option<CommandExecutorComponent>, view: CommandView)
    ensures var body := TryBlock(command, executor, view).events;
      forall i :: 0 <= i < |body| ==> body[i].Delegated? || body[i].ResultProcessed?
  {
  }

  /** The terminal transitions in a transcript made of untracked events, one transition, then log lines. */
  lemma CountFinalized(pre: seq<Event>, transition: Event, post: seq<Event>, event: Event)
    requires forall i :: 0 <= i < |pre| ==> !pre[i].MarkedCompleted? && !pre[i].MarkedFailed?
    requires forall i :: 0 <= i < |post| ==> post[i].Logged?
    requires event == MarkedCompleted || event == MarkedFailed
    ensures Count(pre + [transition] + post, event) == if transition == event then 1 else 0
  {
    CountConcat(pre + [transition], post, event);
    CountConcat(pre, [transition], event);
    CountAbsent(pre, event);
    CountAbsent(post, event);
  }

  /** The error events logged for each kind of thrown value, written out. */
  lemma ClassifiedErrorEvents(error: Thrown)
    ensures var lines := ErrorEvents(ClassifyError(error));
      && (forall i :: 0 <= i < |lines| ==> lines[i].Logged?)
      && (error.OtherError? ==> lines == [
            Logged(LogLine(ErrorLevel, "Command execution failed.")),
            Logged(LogLine(ErrorLevel, "Error class: " + error.className)),
            Logged(LogLine(ErrorLevel, "Error message '" + error.message + "'."))])
      && (!error.OtherError? ==> lines == [Logged(LogLine(ErrorLevel, "Command execution failed."))])
  {
  }

  /**
   * On the success path post-processing (only when the command defines it)
   * comes before the log is marked completed, which happens exactly once and
   * is followed by the single line "Command completed."; the log is never
   * marked failed.
   */
  lemma SuccessTranscript(command: ContextAwareCommand, executor: Option<CommandExecutorComponent>)
    requires Transcript(command, executor).outcome.Normal?
    ensures SetupSucceeds(command)
    ensures var events := Transcript(command, executor).events;
      && |events| >= 2
      && events[|events| - 2] == MarkedCompleted
      && events[|events| - 1] == Logged(LogLine(InfoLevel, "Command completed."))
      && Count(events, MarkedCompleted) == 1
      && Count(events, MarkedFailed) == 0
      && (forall i :: 0 <= i < |events| - 1 ==> !events[i].Logged?)
      && ((exists i :: 0 <= i < |events| && events[i].ResultProcessed?) <==> command.processResult.Some?)
  {
    TranscriptAfterSetup(command, executor);
    var view := AttachedView(command);
    var setup := [LogCreated(command.createCommandLog.value), LoggerAttached(view)];
    var body := TryBlock(command, executor, view);
    TryBlockEvents(command, executor, view);
    var pre := setup + body.events;
    var line := Logged(LogLine(InfoLevel, CompletedMessage));
    var events := Transcript(command, executor).events;
    assert events == pre + [MarkedCompleted] + [line];
    assert forall i :: 0 <= i < |pre| ==> !pre[i].MarkedCompleted? && !pre[i].MarkedFailed? && !pre[i].Logged?;
    CountFinalized(pre, MarkedCompleted, [line], MarkedCompleted);
    CountFinalized(pre, MarkedCompleted, [line], MarkedFailed);
    if command.processResult.Some? {
      assert events[3].ResultProcessed?;
    }
  }

  /**
   * When the delegated execution or the post-processing throws, the log is
   * marked failed exactly once and never completed, no line precedes that
   * transition, and then the classification of the error is logged: one
   * generic line for a command-execution error or a non-Error value, the
   * generic line, the class and the message for any other Error.
   */
  lemma FailureTranscript(command: ContextAwareCommand, executor: Option<CommandExecutorComponent>)
    requires SetupSucceeds(command)
    requires Transcript(command, executor).outcome.Threw?
    ensures var run := Transcript(command, executor);
      var events, error := run.events, run.outcome.error;
      var k := |events| - |ClassifyError(error)| - 1;
      && 0 <= k && events[k] == MarkedFailed
      && Count(events, MarkedFailed) == 1
      && Count(events, MarkedCompleted) == 0
      && (forall i :: 0 <= i < k ==> !events[i].Logged?)
      && (error.OtherError? ==> events[k + 1..] == [
            Logged(LogLine(ErrorLevel, "Command execution failed.")),
            Logged(LogLine(ErrorLevel, "Error class: " + error.className)),
            Logged(LogLine(ErrorLevel, "Error message '" + error.message + "'."))])
      && (!error.OtherError? ==> events[k + 1..] == [Logged(LogLine(ErrorLevel, "Command execution failed."))])
  {
    TranscriptAfterSetup(command, executor);
    var view := AttachedView(command);
    var setup := [LogCreated(command.createCommandLog.value), LoggerAttached(view)];
    var body := TryBlock(command, executor, view);
    TryBlockEvents(command, executor, view);
    var error := body.outcome.error;
    var pre := setup + body.events;
    var lines := ErrorEvents(ClassifyError(error));
    var events := Transcript(command, executor).events;
    assert events == pre + [MarkedFailed] + lines;
    assert events[|pre| + 1..] == lines;
    assert forall i :: 0 <= i < |pre| ==> !pre[i].MarkedCompleted? && !pre[i].MarkedFailed? && !pre[i].Logged?;
    ClassifiedErrorEvents(error);
    CountFinalized(pre, MarkedFailed, lines, MarkedFailed);
    CountFinalized(pre, MarkedFailed, lines, MarkedCompleted);
  }

  /** An error thrown by the delegated execution is rethrown unchanged, and the result is never post-processed. */
  lemma DelegationErrorRethrown(command: ContextAwareCommand, component: CommandExecutorComponent, error: Thrown)
    requires SetupSucceeds(command)
    requires component.execute(AttachedView(command)) == Threw(error)
    ensures Transcript(command, Some(component)).outcome == Threw(error)
    ensures var events := Transcript(command, Some(component)).events;
      forall i :: 0 <= i < |events| ==> !events[i].ResultProcessed?
  {
    var events := Transcript(command, Some(component)).events;
    var prefix := [LogCreated(command.createCommandLog.value), LoggerAttached(AttachedView(command)), Delegated(AttachedView(command)), MarkedFailed];
    assert events == prefix + ErrorEvents(ClassifyError(error));
  }

  /** An error thrown by the post-processing of a delegated result is rethrown unchanged, after that post-processing was attempted. */
  lemma ProcessResultErrorRethrown(command: ContextAwareCommand, component: CommandExecutorComponent, result: Value, error: Thrown)
    requires SetupSucceeds(command)
    requires component.execute(AttachedView(command)) == Normal(result)
    requires command.processResult.Some? && command.processResult.value(result) == Threw(error)
    ensures Transcript(command, Some(component)).outcome == Threw(error)
    ensures var events := Transcript(command, Some(component)).events;
      |events| > 4 && events[3] == ResultProcessed(result) && events[4] == MarkedFailed
  {
  }

  /** Executing before the command executor was set fails inside the try block, so the failure is logged with its class. */
  lemma UnsetExecutorTranscript(command: ContextAwareCommand)
    requires SetupSucceeds(command)
    ensures Transcript(command, None).outcome == Threw(UnsetExecutorError)
    ensures Transcript(command, None).events == [
      LogCreated(command.createCommandLog.value), LoggerAttached(AttachedView(command)), MarkedFailed,
      Logged(LogLine(ErrorLevel, "Command execution failed.")),
      Logged(LogLine(ErrorLevel, "Error class: TypeError")),
      Logged(LogLine(ErrorLevel, "Error message '" + UnsetExecutorError.message + "'."))]
  {
    var events := Transcript(command, None).events;
    var prefix := [LogCreated(command.createCommandLog.value), LoggerAttached(AttachedView(command)), MarkedFailed];
    assert "Error class: " + "TypeError" == "Error class: TypeError";
    assert events == prefix + ErrorEvents(ClassifyError(UnsetExecutorError));
  }

  /**
   * A failure to create the log or the concrete command happens outside the
   * try block: it propagates unchanged, with no terminal transition and no line.
   */
  lemma SetupFailureTranscript(command: ContextAwareCommand, executor: Option<CommandExecutorComponent>)
    requires !SetupSucceeds(command)
    ensures var run := Transcript(command, executor);
      && run.outcome == (if command.createCommandLog.Threw? then Threw(command.createCommandLog.error)
                         else Threw(command.createWrappedCommand.error))
      && run.events == (if command.createCommandLog.Threw? then [] else [LogCreated(command.createCommandLog.value)])
  {
  }

  /**
   * The log is created and the logger attached before anything is delegated;
   * with an executor set, the wrapped command, carrying the logger of this
   * call's log, is delegated right after that, and it is the only command ever
   * delegated; a post-processed result is the one the executor returned.
   */
  lemma DelegatesWrappedCommand(command: ContextAwareCommand, executor: Option<CommandExecutorComponent>)
    requires SetupSucceeds(command)
    ensures var events := Transcript(command, executor).events;
      && |events| >= 3
      && events[0] == LogCreated(command.createCommandLog.value)
      && events[1] == LoggerAttached(AttachedView(command))
      && (executor.Some? ==> events[2] == Delegated(AttachedView(command)))
      && (forall i :: 0 <= i < |events| && events[i].Delegated? ==> i == 2 && events[i].command == AttachedView(command))
      && (forall i :: 0 <= i < |events| && events[i].ResultProcessed? ==>
            executor.Some? && executor.value.execute(AttachedView(command)) == Normal(events[i].result))
  {
    var view := AttachedView(command);
    var setup := [LogCreated(command.createCommandLog.value), LoggerAttached(view)];
    var body := TryBlock(command, executor, view);
    var events := Transcript(command, executor).events;
    var rest := events[|setup + body.events|..];
    assert events == setup + body.events + rest;
    assert forall i :: 0 <= i < |rest| ==> !rest[i].Delegated? && !rest[i].ResultProcessed?;
  }

  /** The command log ends completed with the one success line, or failed with exactly the classified error lines. */
  lemma LogRecordOutcome(command: ContextAwareCommand, executor: Option<CommandExecutorComponent>)
    requires SetupSucceeds(command)
    ensures var run := Transcript(command, executor);
      && (run.outcome.Normal? ==> Replay(run.events) == LogRecord(Completed, [LogLine(InfoLevel, "Command completed.")]))
      && (run.outcome.Threw? ==> Replay(run.events) == LogRecord(Failed, ErrorLines(ClassifyError(run.outcome.error))))
  {
    TranscriptAfterSetup(command, executor);
    var view := AttachedView(command);
    var setup := [LogCreated(command.createCommandLog.value), LoggerAttached(view)];
    var body := TryBlock(command, executor, view);
    ReplaySnoc([], LogCreated(command.createCommandLog.value));
    ReplaySnoc([LogCreated(command.createCommandLog.value)], LoggerAttached(view));
    assert [] + [LogCreated(command.createCommandLog.value)] == [LogCreated(command.createCommandLog.value)];
    assert [LogCreated(command.createCommandLog.value)] + [LoggerAttached(view)] == setup;
    TryBlockEvents(command, executor, view);
    ReplayNoLogEffect(setup, body.events);
    var pre := setup + body.events;
    if body.outcome.Normal? {
      ReplaySnoc(pre, MarkedCompleted);
      ReplaySnoc(pre + [MarkedCompleted], Logged(LogLine(InfoLevel, CompletedMessage)));
      assert pre + [MarkedCompleted, Logged(LogLine(InfoLevel, CompletedMessage))]
          == (pre + [MarkedCompleted]) + [Logged(LogLine(InfoLevel, CompletedMessage))];
    } else {
      ReplaySnoc(pre, MarkedFailed);
      ReplayErrorEvents(pre + [MarkedFailed], ClassifyError(body.outcome.error));
    }
  }
}
