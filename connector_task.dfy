/**
 * The connector task object: the fields `start` fills in, the loops that read the
 * server's answers, the cleanup-on-failure protocol of `start`, and the guards of
 * `stop` and `completeReaders`.
 */
module ConnectorTask {
  import opened Wrappers
  import opened FilterDelta
  import opened ServerChecks
  import opened ListSplit
  import opened StartDecision

  /** What can be thrown inside `start`. */
  datatype Throwable =
    | Connect(ex: ConnectException)
    | Interrupted
    | Other(name: string)

  /** Why a ConnectException was raised. */
  datatype Reason =
    | Refused(error: StartError)     // a refusal of the startup decision
    | InterruptedWhileStarting       // "Interrupted while starting the connector"
    | WrappedCause                   // built from its cause alone

  datatype ConnectException = ConnectException(reason: Reason, cause: Option<Throwable>)

  /**
   * What `start` rethrows for a throwable it caught: a ConnectException unchanged,
   * anything else wrapped in a new ConnectException whose cause it is.
   */
  function Classify(e: Throwable): (r: ConnectException)
    ensures e.Connect? ==> r == e.ex
    ensures !e.Connect? ==> r.cause == Some(e) && !r.reason.Refused?
    ensures r.reason == InterruptedWhileStarting <==> e.Interrupted? || (e.Connect? && e.ex.reason == InterruptedWhileStarting)
  {
    match e
    case Interrupted => ConnectException(InterruptedWhileStarting, Some(e))
    case Connect(ex) => ex
    case Other(_) => ConnectException(WrappedCause, Some(e))
  }

  /** The original throwable can always be recovered from what `start` rethrows. */
  lemma ClassifyKeepsOriginal(e: Throwable)
    ensures Connect(Classify(e)) == e || Classify(e).cause == Some(e)
  {
  }

  /** Reclassifying a classified throwable changes nothing. */
  lemma ClassifyIdempotent(e: Throwable)
    ensures Classify(Connect(Classify(e))) == Classify(e)
  {
  }

  /** What each reader-chain call would throw (initialize, start, stop, destroy). */
  datatype ReaderFaults = ReaderFaults(
    initialize: Option<Throwable>,
    start: Option<Throwable>,
    stop: Option<Throwable>,
    destroy: Option<Throwable>)

  /** A built reader chain, with how it will behave. */
  datatype Readers = Readers(chain: ReaderChain, faults: ReaderFaults)

  /** The collaborator calls the task makes, in the order it makes them. */
  datatype Call = InitializeReaders | StartReaders | StopReaders | DestroyReaders | ShutdownTaskContext

  /** What startup is given besides the configuration and the stored offsets. */
  datatype Environment = Environment(historyExists: bool, server: Server, readerFaults: ReaderFaults)

  /** The calls `stop` makes: nothing without a host context or readers, else stop and, unless that throws, destroy. */
  function StopCalls(hasContext: bool, readers: Option<Readers>): (calls: seq<Call>)
    ensures calls <= [StopReaders, DestroyReaders]
    ensures DestroyReaders in calls ==> calls == [StopReaders, DestroyReaders]
    ensures calls != [] <==> hasContext && readers.Some?
    ensures hasContext && readers.Some? ==>
      calls[0] == StopReaders && (DestroyReaders in calls <==> readers.value.faults.stop.None?)
  {
    if !hasContext || readers.None? then []
    else if readers.value.faults.stop.Some? then [StopReaders]
    else [StopReaders, DestroyReaders]
  }

  /** What `stop` throws: nothing when it calls nothing, else the stop fault, or the destroy fault when stop succeeded. */
  function StopThrown(hasContext: bool, readers: Option<Readers>): (t: Option<Throwable>)
    ensures StopCalls(hasContext, readers) == [] ==> t.None?
    ensures StopCalls(hasContext, readers) == [StopReaders] ==> t.Some? && t == readers.value.faults.stop
    ensures DestroyReaders in StopCalls(hasContext, readers) ==> t == readers.value.faults.destroy
  {
    if !hasContext || readers.None? then None
    else if readers.value.faults.stop.Some? then readers.value.faults.stop
    else readers.value.faults.destroy
  }

  /** The readers after startup: the new chain when the decision produced one, else whatever was there. */
  function ReadersAfter(s: Startup, faults: ReaderFaults, before: Option<Readers>): (r: Option<Readers>)
    ensures s.outcome.Ok? ==> r.Some? && r.value.chain == s.outcome.value && r.value.faults == faults
    ensures s.outcome.Fail? ==> r == before
  {
    if s.outcome.Ok? then Some(Readers(s.outcome.value, faults)) else before
  }

  /** The reader calls after a successful decision: initialize, then start unless initialize threw. */
  function ReaderStartCalls(s: Startup, faults: ReaderFaults): (calls: seq<Call>)
    ensures calls <= [InitializeReaders, StartReaders]
    ensures s.outcome.Fail? ==> calls == []
    ensures StartReaders in calls ==> faults.initialize.None?
    ensures s.outcome.Ok? ==> calls != [] && calls[0] == InitializeReaders && (StartReaders in calls <==> faults.initialize.None?)
  {
    if s.outcome.Fail? then []
    else if faults.initialize.Some? then [InitializeReaders]
    else [InitializeReaders, StartReaders]
  }

  /** What the body of `start` throws: the decision's refusal, or the first fault of initialize or start. */
  function StartupThrown(s: Startup, faults: ReaderFaults): (t: Option<Throwable>)
    ensures s.outcome.Fail? ==> t == Some(Connect(ConnectException(Refused(s.outcome.error), None)))
    ensures s.outcome.Ok? ==> (t.None? <==> faults.initialize.None? && faults.start.None?)
    ensures s.outcome.Ok? ==> t == (if faults.initialize.Some? then faults.initialize else faults.start)
  {
    if s.outcome.Fail? then Some(Connect(ConnectException(Refused(s.outcome.error), None)))
    else if faults.initialize.Some? then faults.initialize
    else faults.start
  }

  /** Reading a result set row by row into a list: the list holds the rows in order. */
  method ReadRows(rows: seq<string>) returns (names: seq<string>)
    ensures names == rows
  {
    names := [];
    var i := 0;
    while i < |rows|
      invariant 0 <= i <= |rows|
      invariant names == rows[..i]
    {
      names := names + [rows[i]];
      i := i + 1;
    }
  }

  class MySqlConnectorTask {
    /** Whether the host has given the task its context (the inherited `context` field is non-null). */
    var hasContext: bool
    var taskContext: Option<TaskContext>
    var connectionContext: Option<Server>
    var readers: Option<Readers>
    /** The calls made to collaborators so far. */
    var calls: seq<Call>
    /** The warnings logged so far. */
    var warnings: seq<Warning>

    constructor (hasContext: bool)
      ensures this.hasContext == hasContext
      ensures taskContext.None? && connectionContext.None? && readers.None?
      ensures calls == [] && warnings == []
    {
      this.hasContext := hasContext;
      taskContext := None;
      connectionContext := None;
      readers := None;
      calls := [];
      warnings := [];
    }

    /** Whether the server still has the position recorded in the task context. */
    method IsBinlogAvailable() returns (available: bool)
      requires taskContext.Some? && connectionContext.Some?
      ensures available == BinlogAvailable(taskContext.value.source, connectionContext.value)
    {
      var source := taskContext.value.source;
      var server := connectionContext.value;
      if source.gtidSet.Some? {
        var recorded := source.gtidSet.value;
        if JavaText.Trim(recorded) == [] {
          return true;
        }
        if server.knownGtidSet.None? || JavaText.Trim(server.knownGtidSet.value) == [] {
          return false;
        }
        return server.gtidCovers(recorded, server.knownGtidSet.value);
      }
      if source.binlogFilename.None? {
        return true;
      }
      var name := source.binlogFilename.value;
      if name == "" {
        return true;
      }
      var logNames := ReadRows(server.binaryLogs);
      available := name in logNames;
    }

    /** The earliest binlog the server still has, or null. */
    method EarliestBinlogFilename() returns (earliest: Option<string>)
      requires connectionContext.Some?
      ensures earliest == EarliestBinlog(connectionContext.value.binaryLogs)
    {
      var logNames := ReadRows(connectionContext.value.binaryLogs);
      if logNames == [] {
        return None;
      }
      earliest := Some(logNames[0]);
    }

    /** Whether the server's binlog is in row format. */
    method IsRowBinlogEnabled() returns (enabled: bool)
      requires connectionContext.Some?
      ensures enabled == RowBinlogEnabled(connectionContext.value.binlogFormat)
    {
      var mode := "";
      if connectionContext.value.binlogFormat.Some? {
        mode := connectionContext.value.binlogFormat.value;
      }
      enabled := JavaText.EqualsIgnoreCase("ROW", Some(mode));
    }

    /** The resume decision of `start`: fills in the task context and decides whether to snapshot. */
    method DecideResume(config: Config, offsets: Option<SourceInfo>, env: Environment)
      returns (startWithSnapshot: bool, refusal: Option<StartError>)
      modifies this`taskContext, this`connectionContext, this`warnings
      ensures var r := ResumeDecision(config, offsets, env.historyExists, env.server);
        && taskContext == Some(r.context)
        && startWithSnapshot == r.startWithSnapshot
        && refusal == r.refusal
        && warnings == old(warnings) + r.warnings
      ensures connectionContext == Some(env.server)
    {
      startWithSnapshot := false;
      refusal := None;
      if offsets.Some? {
        var filters := if offsets.value.filterInfo.Some? then OldFilters else AllFilters;
        taskContext := Some(TaskContext(filters, offsets.value, []));
        connectionContext := Some(env.server);
        if !env.historyExists {
          if config.schemaOnlyRecovery {
            startWithSnapshot := true;
            var available := IsBinlogAvailable();
            if !available {
              return startWithSnapshot, Some(BinlogNoLongerAvailable);
            }
          } else {
            return startWithSnapshot, Some(HistoryMissing);
          }
          taskContext := Some(taskContext.value.(history := taskContext.value.history + [InitializeHistoryStorage]));
          assert taskContext.value.history == [InitializeHistoryStorage];
        } else {
          taskContext := Some(taskContext.value.(history := taskContext.value.history + [LoadHistory]));
          assert taskContext.value.history == [LoadHistory];
          if offsets.value.snapshotInEffect {
            if config.snapshotNeverAllowed {
              return startWithSnapshot, Some(IncompleteSnapshotNotAllowed);
            }
            startWithSnapshot := true;
          } else {
            startWithSnapshot := false;
            var available := IsBinlogAvailable();
            if !available {
              if !config.snapshotAllowedWhenNeeded {
                return startWithSnapshot, Some(BinlogNoLongerAvailable);
              }
              startWithSnapshot := true;
            }
          }
        }
      } else {
        taskContext := Some(TaskContext(AllFilters, FreshSource, [InitializeHistoryStorage]));
        connectionContext := Some(env.server);
        if config.snapshotNeverAllowed {
          var start := taskContext.value.source.(binlogFilename := Some(""), binlogPosition := 0);
          taskContext := Some(taskContext.value.(source := start, history := taskContext.value.history + [InitializeHistory]));
          assert taskContext.value.history == [InitializeHistoryStorage, InitializeHistory];
          var earliest := EarliestBinlogFilename();
          if earliest.None? {
            warnings := warnings + [NoBinlogAvailable];
          } else if !JavaText.EndsWith(earliest.value, "00001") {
            warnings := warnings + [BinlogsMayHaveBeenPurged];
          }
        } else {
          startWithSnapshot := true;
        }
      }
    }

    /**
     * The GTID baseline, the row-format check and the chain building of `start`,
     * after a resume decision that did not refuse; returns the chain or the refusal.
     * `sep` is the separator the new-table check splits filter lists with.
     */
    method ComposeChain(sep: Separator, config: Config, startWithSnapshot: bool, server: Server)
      returns (outcome: Result<ReaderChain, StartError>)
      requires taskContext.Some? && connectionContext == Some(server)
      modifies this`taskContext
      ensures var s := ComposeReaders(sep, config, Resume(old(taskContext.value), startWithSnapshot, [], None), server);
        taskContext == Some(s.context) && outcome == s.outcome
    {
      ghost var plan := ComposeReaders(sep, config, Resume(taskContext.value, startWithSnapshot, [], None), server);
      var source := taskContext.value.source;
      if !startWithSnapshot && source.gtidSet.None? && server.gtidModeEnabled {
        taskContext := Some(taskContext.value.(source := source.(gtidSet := Some(""))));
      }
      var rowBinlogEnabled := IsRowBinlogEnabled();

      var chain: seq<ReaderKind> := [];
      var completion: Option<string> := None;
      if startWithSnapshot {
        if config.snapshotDelay != 0 {
          chain := chain + [TimedBlocker];
        }
        chain := chain + [Snapshot];
        assert chain == (if config.snapshotDelay != 0 then [TimedBlocker] else []) + [Snapshot];
        if config.initialSnapshotOnly {
          chain := chain + [Blocker];
          completion := Some(SnapshotOnlyCompletion);
        } else {
          if !rowBinlogEnabled {
            return Fail(SnapshotNeedsRowBinlog);
          }
          chain := chain + [Binlog];
        }
      } else {
        if taskContext.value.source.filterInfo.None? {
          taskContext := Some(taskContext.value.(source := taskContext.value.source.(filterInfo := Some(config.filters))));
        }
        if !rowBinlogEnabled {
          return Fail(BinlogNeedsRowBinlog);
        }
        if NewTablesInConfig(sep, taskContext.value.source.filterInfo, config.filters) {
          if config.snapshotNewTables == Parallel {
            chain := chain + [ParallelSnapshot];
            chain := chain + [Reconciling];
            chain := chain + [UnifiedBinlog];
            assert chain == [ParallelSnapshot, Reconciling, UnifiedBinlog];
          }
        } else {
          chain := chain + [Binlog];
          assert chain == [Binlog];
        }
      }
      outcome := Ok(ReaderChain(chain, completion));
    }

    /**
     * The body of `start`, up to and including starting the readers; returns what it
     * throws. Without a host context the offsets cannot be read, so it throws at once.
     */
    method RunStartup(sep: Separator, config: Config, offsets: Option<SourceInfo>, env: Environment) returns (thrown: Option<Throwable>)
      modifies this
      ensures !old(hasContext) ==>
        && thrown == Some(Other("NullPointerException"))
        && taskContext == old(taskContext) && connectionContext == old(connectionContext)
        && readers == old(readers) && calls == old(calls) && warnings == old(warnings)
        && hasContext == old(hasContext)
      ensures old(hasContext) ==> var s := StartPlan(sep, config, offsets, env.historyExists, env.server);
        && taskContext == Some(s.context)
        && connectionContext == Some(env.server)
        && readers == ReadersAfter(s, env.readerFaults, old(readers))
        && calls == old(calls) + ReaderStartCalls(s, env.readerFaults)
        && warnings == old(warnings) + s.warnings
        && thrown == StartupThrown(s, env.readerFaults)
        && hasContext == old(hasContext)
    {
      // The offsets are read through the host context before anything else (line 71).
      if !hasContext {
        return Some(Other("NullPointerException"));
      }
      var startWithSnapshot, refusal := DecideResume(config, offsets, env);
      if refusal.Some? {
        return Some(Connect(ConnectException(Refused(refusal.value), None)));
      }
      var outcome := ComposeChain(sep, config, startWithSnapshot, env.server);
      if outcome.Fail? {
        return Some(Connect(ConnectException(Refused(outcome.error), None)));
      }
      readers := Some(Readers(outcome.value, env.readerFaults));
      calls := calls + [InitializeReaders];
      if env.readerFaults.initialize.Some? {
        return env.readerFaults.initialize;
      }
      calls := calls + [StartReaders];
      thrown := env.readerFaults.start;
    }

    /**
     * `start`: run the startup body; if it throws, call `stop` (dropping whatever
     * the cleanup throws) and rethrow the original throwable as a ConnectException.
     * The code as written is `Start(WrittenSeparator, ...)`.
     */
    method Start(sep: Separator, config: Config, offsets: Option<SourceInfo>, env: Environment) returns (failure: Option<ConnectException>)
      modifies this
      ensures !old(hasContext) ==>
        && failure == Some(Classify(Other("NullPointerException")))
        && taskContext == old(taskContext) && connectionContext == old(connectionContext)
        && readers == old(readers) && calls == old(calls) && warnings == old(warnings)
        && hasContext == old(hasContext)
      ensures old(hasContext) ==> var s := StartPlan(sep, config, offsets, env.historyExists, env.server);
        var thrown := StartupThrown(s, env.readerFaults);
        var built := ReadersAfter(s, env.readerFaults, old(readers));
        && taskContext == Some(s.context)
        && connectionContext == Some(env.server)
        && readers == built
        && hasContext == old(hasContext)
        && warnings == old(warnings) + s.warnings
        && failure == (if thrown.Some? then Some(Classify(thrown.value)) else None)
        && calls == old(calls) + ReaderStartCalls(s, env.readerFaults)
                    + (if thrown.Some? then StopCalls(old(hasContext), built) else [])
    {
      var thrown := RunStartup(sep, config, offsets, env);
      if thrown.Some? {
        // A failure while cleaning up is logged and never replaces the original one.
        var cleanupFailure := Stop();
        failure := Some(Classify(thrown.value));
      } else {
        failure := None;
      }
    }

    /** `stop`: with a host context and readers, stop the readers and then destroy them. */
    method Stop() returns (thrown: Option<Throwable>)
      modifies this`calls
      ensures calls == old(calls) + StopCalls(hasContext, readers)
      ensures thrown == StopThrown(hasContext, readers)
    {
      thrown := None;
      if hasContext {
        if readers.Some? {
          calls := calls + [StopReaders];
          if readers.value.faults.stop.Some? {
            return readers.value.faults.stop;
          }
          calls := calls + [DestroyReaders];
          thrown := readers.value.faults.destroy;
        }
      }
    }

    /**
     * `completeReaders`: shut the task context down and clear the host context. A
     * failure of the shutdown is logged and dropped, so it makes no difference here.
     * The task context is dereferenced before its null check, so without one the
     * call throws and changes nothing.
     */
    method CompleteReaders() returns (thrown: Option<Throwable>)
      modifies this`calls, this`hasContext
      ensures old(taskContext).None? ==> thrown == Some(Other("NullPointerException")) && calls == old(calls) && hasContext == old(hasContext)
      ensures old(taskContext).Some? ==> thrown.None? && calls == old(calls) + [ShutdownTaskContext] && !hasContext
    {
      if taskContext.None? {
        return Some(Other("NullPointerException"));
      }
      calls := calls + [ShutdownTaskContext];
      hasContext := false;
      thrown := None;
    }
  }

  /** Once the readers have completed, a later `stop` touches nothing. */
  method StopAfterCompletion(task: MySqlConnectorTask) returns (thrown: Option<Throwable>)
    requires task.taskContext.Some?
    modifies task
    ensures task.calls == old(task.calls) + [ShutdownTaskContext]
    ensures thrown.None?
  {
    var _ := task.CompleteReaders();
    thrown := task.Stop();
  }

  /**
   * After `completeReaders` has cleared the host context, a new `start` cannot read
   * the offsets: it rethrows that failure wrapped in a ConnectException, makes no
   * collaborator call and leaves the readers as they were.
   */
  method StartAfterCompletion(task: MySqlConnectorTask, sep: Separator, config: Config, offsets: Option<SourceInfo>, env: Environment)
    returns (failure: Option<ConnectException>)
    requires task.taskContext.Some?
    modifies task
    ensures task.calls == old(task.calls) + [ShutdownTaskContext]
    ensures task.readers == old(task.readers)
    ensures failure == Some(ConnectException(WrappedCause, Some(Other("NullPointerException"))))
  {
    var _ := task.CompleteReaders();
    failure := task.Start(sep, config, offsets, env);
  }

  /**
   * A start on a fresh task whose readers fail to start: a refused start calls
   * nothing and rethrows the refusal; a built chain is initialized, started, then
   * stopped and destroyed, and the start fault is what is rethrown.
   */
  method StartFailureCleanup(sep: Separator, config: Config, offsets: Option<SourceInfo>, env: Environment)
    returns (task: MySqlConnectorTask, failure: Option<ConnectException>)
    requires env.readerFaults.initialize.None? && env.readerFaults.start.Some?
    requires env.readerFaults.stop.None?
    ensures fresh(task)
    ensures var s := StartPlan(sep, config, offsets, env.historyExists, env.server);
      && (s.outcome.Fail? ==> task.calls == [] && failure == Some(ConnectException(Refused(s.outcome.error), None)))
      && (s.outcome.Ok? ==>
            && task.calls == [InitializeReaders, StartReaders, StopReaders, DestroyReaders]
            && failure == Some(Classify(env.readerFaults.start.value)))
  {
    task := new MySqlConnectorTask(true);
    failure := task.Start(sep, config, offsets, env);
  }
}
