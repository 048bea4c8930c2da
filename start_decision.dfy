/**
 * The task's startup decision: from the stored offsets (if any), whether the
 * schema history exists, the snapshot configuration and the server's answers,
 * decide whether to start with a snapshot or to resume the binlog (or to refuse
 * to start), and compose the ordered chain of readers that will run.
 */
module StartDecision {
  import opened Wrappers
  import opened ListSplit
  import opened FilterDelta
  import opened ServerChecks

  datatype SnapshotNewTables = Off | Parallel

  /**
   * The configuration facts the decision consults. The four snapshot flags are the
   * task context's answers (snapshot never allowed, allowed when needed,
   * schema-only recovery, initial snapshot only); `snapshotDelay` is the snapshot
   * delay in milliseconds.
   */
  datatype Config = Config(
    filters: FilterLists,
    snapshotNeverAllowed: bool,
    snapshotAllowedWhenNeeded: bool,
    schemaOnlyRecovery: bool,
    initialSnapshotOnly: bool,
    snapshotNewTables: SnapshotNewTables,
    snapshotDelay: int)

  /** Which tables the task context's filters select: all configured ones, or those recorded in the offsets. */
  datatype FilterChoice = AllFilters | OldFilters

  /** The schema-history operations startup performs, in order. */
  datatype HistoryStep = InitializeHistoryStorage | LoadHistory | InitializeHistory

  /** The task context as startup leaves it: its filters, its position and what was done to its history. */
  datatype TaskContext = TaskContext(filters: FilterChoice, source: SourceInfo, history: seq<HistoryStep>)

  /** The reasons startup refuses to go on. */
  datatype StartError =
    | HistoryMissing                 // offsets but no schema history, and no schema-only recovery
    | BinlogNoLongerAvailable        // the recorded binlog position is gone from the server
    | IncompleteSnapshotNotAllowed   // the last run stopped mid-snapshot and snapshots are never allowed
    | SnapshotNeedsRowBinlog         // a snapshot followed by the binlog, but the binlog is not in row format
    | BinlogNeedsRowBinlog           // resuming the binlog, but it is not in row format

  /**
   * The outcome of the resume decision: the task context, whether to start with a
   * snapshot, the warnings logged, and the refusal if startup stops here.
   */
  datatype Resume = Resume(
    context: TaskContext,
    startWithSnapshot: bool,
    warnings: seq<Warning>,
    refusal: Option<StartError>)

  /** The readers of a chain, as tags. The unified binlog reader runs in a second task context over all filters. */
  datatype ReaderKind =
    | TimedBlocker      // waits out the snapshot delay
    | Snapshot
    | Blocker           // keeps a snapshot-only task running after the snapshot
    | Binlog
    | ParallelSnapshot  // snapshots only the newly added tables
    | Reconciling       // brings the new-table binlog reader level with the old one
    | UnifiedBinlog     // the binlog over all tables, once reconciled

  datatype ReaderChain = ReaderChain(readers: seq<ReaderKind>, completionMessage: Option<string>)

  /** Where startup ends: the task context, the snapshot decision, warnings, and the chain or the refusal. */
  datatype Startup = Startup(
    context: TaskContext,
    startWithSnapshot: bool,
    warnings: seq<Warning>,
    outcome: Result<ReaderChain, StartError>)

  const SnapshotOnlyCompletion :=
    "Connector configured to only perform snapshot, and snapshot completed successfully. Connector will terminate."

  /**
   * The list separators the new-table check can split with: the one the task
   * passes, and the one it evidently meant. The decision is stated for either.
   */
  const WrittenSeparator := SlashSeparator
  const IntendedSeparator := CommaSeparator

  /** The resume decision table. */
  function ResumeDecision(config: Config, offsets: Option<SourceInfo>, historyExists: bool, server: Server): (r: Resume)
    ensures offsets.None? ==> r.refusal.None?
    ensures r.context.filters == OldFilters <==> offsets.Some? && offsets.value.filterInfo.Some?
    ensures r.warnings != [] ==> offsets.None? && config.snapshotNeverAllowed
    ensures offsets.Some? && r.refusal.None? && !r.startWithSnapshot ==>
      historyExists && !offsets.value.snapshotInEffect && BinlogAvailable(offsets.value, server)
  {
    match offsets
    case Some(stored) =>
      var filters := if stored.filterInfo.Some? then OldFilters else AllFilters;
      if !historyExists then
        var context := TaskContext(filters, stored, []);
        if !config.schemaOnlyRecovery then Resume(context, false, [], Some(HistoryMissing))
        else if !BinlogAvailable(stored, server) then Resume(context, true, [], Some(BinlogNoLongerAvailable))
        else Resume(context.(history := [InitializeHistoryStorage]), true, [], None)
      else
        var context := TaskContext(filters, stored, [LoadHistory]);
        if stored.snapshotInEffect then
          if config.snapshotNeverAllowed then Resume(context, false, [], Some(IncompleteSnapshotNotAllowed))
          else Resume(context, true, [], None)
        else if BinlogAvailable(stored, server) then Resume(context, false, [], None)
        else if !config.snapshotAllowedWhenNeeded then Resume(context, false, [], Some(BinlogNoLongerAvailable))
        else Resume(context, true, [], None)
    case None =>
      if config.snapshotNeverAllowed then
        var start := FreshSource.(binlogFilename := Some(""), binlogPosition := 0);
        Resume(TaskContext(AllFilters, start, [InitializeHistoryStorage, InitializeHistory]),
               false, PurgeWarnings(EarliestBinlog(server.binaryLogs)), None)
      else
        Resume(TaskContext(AllFilters, FreshSource, [InitializeHistoryStorage]), true, [], None)
  }

  /** The GTID baseline, the row-format check and the reader chain, after a resume decision, splitting filter lists with `sep`. */
  function ComposeReaders(sep: Separator, config: Config, resume: Resume, server: Server): (s: Startup)
    ensures resume.refusal.Some? ==> s.outcome == Fail(resume.refusal.value)
    ensures s.startWithSnapshot == resume.startWithSnapshot && s.warnings == resume.warnings
    ensures s.context.filters == resume.context.filters && s.context.history == resume.context.history
    ensures s.outcome.Ok? && (Binlog in s.outcome.value.readers || UnifiedBinlog in s.outcome.value.readers) ==>
      RowBinlogEnabled(server.binlogFormat)
  {
    if resume.refusal.Some? then
      Startup(resume.context, resume.startWithSnapshot, resume.warnings, Fail(resume.refusal.value))
    else
      var source := resume.context.source;
      var source1 :=
        if !resume.startWithSnapshot && source.gtidSet.None? && server.gtidModeEnabled
        then source.(gtidSet := Some("")) else source;
      var rowBinlog := RowBinlogEnabled(server.binlogFormat);
      if resume.startWithSnapshot then
        var context := resume.context.(source := source1);
        var first := (if config.snapshotDelay != 0 then [TimedBlocker] else []) + [Snapshot];
        var outcome :=
          if config.initialSnapshotOnly then Ok(ReaderChain(first + [Blocker], Some(SnapshotOnlyCompletion)))
          else if !rowBinlog then Fail(SnapshotNeedsRowBinlog)
          else Ok(ReaderChain(first + [Binlog], None));
        Startup(context, true, resume.warnings, outcome)
      else
        var source2 := if source1.filterInfo.None? then source1.(filterInfo := Some(config.filters)) else source1;
        var context := resume.context.(source := source2);
        var outcome :=
          if !rowBinlog then Fail(BinlogNeedsRowBinlog)
          else if NewTablesInConfig(sep, source2.filterInfo, config.filters) then
            if config.snapshotNewTables == Parallel
            then Ok(ReaderChain([ParallelSnapshot, Reconciling, UnifiedBinlog], None))
            else Ok(ReaderChain([], None))
          else Ok(ReaderChain([Binlog], None));
        Startup(context, false, resume.warnings, outcome)
  }

  /** Everything `start` decides before it initializes and starts the readers. */
  function StartPlan(sep: Separator, config: Config, offsets: Option<SourceInfo>, historyExists: bool, server: Server): (s: Startup)
    ensures s.outcome.Fail? && ResumeDecision(config, offsets, historyExists, server).refusal.None? ==>
      !RowBinlogEnabled(server.binlogFormat)
  {
    ComposeReaders(sep, config, ResumeDecision(config, offsets, historyExists, server), server)
  }

  // ---------------------------------------------------------------------------
  // The resume decision table, case by case.

  /** No stored offsets, snapshots never allowed: no snapshot, start at ("", 0), history initialized, all filters, warnings about purged binlogs. */
  lemma NoOffsetsSnapshotNeverAllowed(config: Config, historyExists: bool, server: Server)
    requires config.snapshotNeverAllowed
    ensures var r := ResumeDecision(config, None, historyExists, server);
      && r.refusal.None? && !r.startWithSnapshot
      && r.context.filters == AllFilters
      && r.context.source.binlogFilename == Some("") && r.context.source.binlogPosition == 0
      && r.context.history == [InitializeHistoryStorage, InitializeHistory]
      && r.warnings == PurgeWarnings(EarliestBinlog(server.binaryLogs))
  {
  }

  /** No stored offsets, snapshots allowed: start with a snapshot over all filters. */
  lemma NoOffsetsSnapshotAllowed(config: Config, historyExists: bool, server: Server)
    requires !config.snapshotNeverAllowed
    ensures var r := ResumeDecision(config, None, historyExists, server);
      && r.refusal.None? && r.startWithSnapshot && r.context.filters == AllFilters
      && r.context.source == FreshSource && r.context.history == [InitializeHistoryStorage]
  {
  }

  /** Stored offsets without schema history: refused unless schema-only recovery; then refused exactly when the binlog is gone, else a snapshot. */
  lemma OffsetsWithoutHistory(config: Config, stored: SourceInfo, server: Server)
    ensures var r := ResumeDecision(config, Some(stored), false, server);
      && (!config.schemaOnlyRecovery ==> r.refusal == Some(HistoryMissing))
      && (config.schemaOnlyRecovery && !BinlogAvailable(stored, server) ==> r.refusal == Some(BinlogNoLongerAvailable))
      && (config.schemaOnlyRecovery && BinlogAvailable(stored, server) ==>
            r.refusal.None? && r.startWithSnapshot && r.context.history == [InitializeHistoryStorage])
  {
  }

  /** Stored offsets and history, recorded mid-snapshot: refused when snapshots are never allowed, else a new snapshot. */
  lemma OffsetsInterruptedSnapshot(config: Config, stored: SourceInfo, server: Server)
    requires stored.snapshotInEffect
    ensures var r := ResumeDecision(config, Some(stored), true, server);
      && r.context.history == [LoadHistory]
      && (config.snapshotNeverAllowed ==> r.refusal == Some(IncompleteSnapshotNotAllowed))
      && (!config.snapshotNeverAllowed ==> r.refusal.None? && r.startWithSnapshot)
  {
  }

  /** In the mid-snapshot case the server's binlog is not consulted: the decision is the same for every server. */
  lemma InterruptedSnapshotIgnoresServer(config: Config, stored: SourceInfo, server1: Server, server2: Server)
    requires stored.snapshotInEffect
    ensures ResumeDecision(config, Some(stored), true, server1) == ResumeDecision(config, Some(stored), true, server2)
  {
  }

  /** Stored offsets and history, complete position: the binlog if still available; else refused unless snapshots are allowed when needed, then a snapshot. */
  lemma OffsetsCompletePosition(config: Config, stored: SourceInfo, server: Server)
    requires !stored.snapshotInEffect
    ensures var r := ResumeDecision(config, Some(stored), true, server);
      && r.context.history == [LoadHistory]
      && (BinlogAvailable(stored, server) ==> r.refusal.None? && !r.startWithSnapshot)
      && (!BinlogAvailable(stored, server) && !config.snapshotAllowedWhenNeeded ==> r.refusal == Some(BinlogNoLongerAvailable))
      && (!BinlogAvailable(stored, server) && config.snapshotAllowedWhenNeeded ==> r.refusal.None? && r.startWithSnapshot)
  {
  }

  /** With stored offsets the task context keeps the recorded position and uses the recorded filters exactly when there are some. */
  lemma OffsetsChooseFilters(config: Config, stored: SourceInfo, historyExists: bool, server: Server)
    ensures var r := ResumeDecision(config, Some(stored), historyExists, server);
      && r.context.source == stored
      && (r.context.filters == OldFilters <==> stored.filterInfo.Some?)
  {
  }

  /** Without stored offsets the resume decision never refuses. */
  lemma NoOffsetsNeverRefused(config: Config, historyExists: bool, server: Server)
    ensures ResumeDecision(config, None, historyExists, server).refusal.None?
  {
  }

  // ---------------------------------------------------------------------------
  // The reader chain.

  /** The snapshot path: an optional timed blocker, the snapshot, then a blocker with a completion message or the binlog. */
  lemma SnapshotChain(sep: Separator, config: Config, offsets: Option<SourceInfo>, historyExists: bool, server: Server)
    requires var r := ResumeDecision(config, offsets, historyExists, server); r.refusal.None? && r.startWithSnapshot
    ensures var s := StartPlan(sep, config, offsets, historyExists, server);
      var first := (if config.snapshotDelay != 0 then [TimedBlocker] else []) + [Snapshot];
      && s.startWithSnapshot
      && s.context == ResumeDecision(config, offsets, historyExists, server).context
      && (config.initialSnapshotOnly ==> s.outcome == Ok(ReaderChain(first + [Blocker], Some(SnapshotOnlyCompletion))))
      && (!config.initialSnapshotOnly && !RowBinlogEnabled(server.binlogFormat) ==> s.outcome == Fail(SnapshotNeedsRowBinlog))
      && (!config.initialSnapshotOnly && RowBinlogEnabled(server.binlogFormat) ==> s.outcome == Ok(ReaderChain(first + [Binlog], None)))
  {
  }

  /**
   * The binlog path: an empty completed GTID set exactly when none is recorded and
   * GTID mode is on; the configured filters stamped exactly when none are recorded;
   * refused without a row binlog; else the binlog, the parallel new-table chain, or
   * no reader at all when new tables appear and parallel snapshots are off.
   */
  lemma BinlogChain(sep: Separator, config: Config, offsets: Option<SourceInfo>, historyExists: bool, server: Server)
    requires var r := ResumeDecision(config, offsets, historyExists, server); r.refusal.None? && !r.startWithSnapshot
    ensures var r := ResumeDecision(config, offsets, historyExists, server);
      var s := StartPlan(sep, config, offsets, historyExists, server);
      var before := r.context.source;
      var after := s.context.source;
      var newTables := NewTablesInConfig(sep, after.filterInfo, config.filters);
      && !s.startWithSnapshot
      && s.context.filters == r.context.filters && s.context.history == r.context.history
      && after.gtidSet == (if before.gtidSet.None? && server.gtidModeEnabled then Some("") else before.gtidSet)
      && after.filterInfo == (if before.filterInfo.None? then Some(config.filters) else before.filterInfo)
      && after.binlogFilename == before.binlogFilename && after.binlogPosition == before.binlogPosition
      && after.snapshotInEffect == before.snapshotInEffect
      && (!RowBinlogEnabled(server.binlogFormat) ==> s.outcome == Fail(BinlogNeedsRowBinlog))
      && (RowBinlogEnabled(server.binlogFormat) && !newTables ==> s.outcome == Ok(ReaderChain([Binlog], None)))
      && (RowBinlogEnabled(server.binlogFormat) && newTables && config.snapshotNewTables == Parallel ==>
            s.outcome == Ok(ReaderChain([ParallelSnapshot, Reconciling, UnifiedBinlog], None)))
      && (RowBinlogEnabled(server.binlogFormat) && newTables && config.snapshotNewTables == Off ==>
            s.outcome == Ok(ReaderChain([], None)))
  {
  }

  /** A position without recorded filter lists is stamped with the configured ones, and then never shows new tables. */
  lemma UnfilteredPositionResumesBinlog(sep: Separator, config: Config, offsets: Option<SourceInfo>, historyExists: bool, server: Server)
    requires var r := ResumeDecision(config, offsets, historyExists, server);
      r.refusal.None? && !r.startWithSnapshot && r.context.source.filterInfo.None?
    requires RowBinlogEnabled(server.binlogFormat)
    ensures StartPlan(sep, config, offsets, historyExists, server).outcome == Ok(ReaderChain([Binlog], None))
  {
  }

  // ---------------------------------------------------------------------------
  // Safety of the whole decision.

  /** Startup never tails the binlog from a recorded position the server no longer has. */
  lemma NeverResumesUnavailablePosition(sep: Separator, config: Config, stored: SourceInfo, historyExists: bool, server: Server)
    requires StartPlan(sep, config, Some(stored), historyExists, server).outcome.Ok?
    requires !StartPlan(sep, config, Some(stored), historyExists, server).startWithSnapshot
    ensures BinlogAvailable(stored, server)
  {
  }

  /** Startup never trusts a position recorded in the middle of a snapshot. */
  lemma NeverResumesInterruptedSnapshot(sep: Separator, config: Config, stored: SourceInfo, historyExists: bool, server: Server)
    requires stored.snapshotInEffect
    requires StartPlan(sep, config, Some(stored), historyExists, server).outcome.Ok?
    ensures StartPlan(sep, config, Some(stored), historyExists, server).startWithSnapshot
  {
  }

  /** Every chain that reads the binlog was checked for row format, and a snapshot reader runs exactly when startup snapshots. */
  lemma ChainShape(sep: Separator, config: Config, offsets: Option<SourceInfo>, historyExists: bool, server: Server)
    requires StartPlan(sep, config, offsets, historyExists, server).outcome.Ok?
    ensures var s := StartPlan(sep, config, offsets, historyExists, server);
      var readers := s.outcome.value.readers;
      && ((Binlog in readers || UnifiedBinlog in readers) ==> RowBinlogEnabled(server.binlogFormat))
      && (Snapshot in readers <==> s.startWithSnapshot)
      && (TimedBlocker in readers <==> s.startWithSnapshot && config.snapshotDelay != 0)
      && (s.outcome.value.completionMessage.Some? <==> s.startWithSnapshot && config.initialSnapshotOnly)
  {
  }

  /** A non-row binlog refuses startup only when the binlog would be read: never for a snapshot-only run. */
  lemma RowFormatRefusals(sep: Separator, config: Config, offsets: Option<SourceInfo>, historyExists: bool, server: Server)
    requires ResumeDecision(config, offsets, historyExists, server).refusal.None?
    ensures var s := StartPlan(sep, config, offsets, historyExists, server);
      s.outcome.Fail? <==> !RowBinlogEnabled(server.binlogFormat) && !(s.startWithSnapshot && config.initialSnapshotOnly)
  {
  }

  /**
   * The separator decides what a reordered table whitelist does to a binlog start.
   * As written, the stored "a,b" and the configured "b,a" look like new tables, and
   * without parallel snapshots no reader is added at all; with the intended
   * separator the task resumes the binlog.
   */
  lemma ReorderedWhitelistAtStartup(config: Config, stored: SourceInfo, server: Server)
    requires !stored.snapshotInEffect && BinlogAvailable(stored, server)
    requires RowBinlogEnabled(server.binlogFormat) && config.snapshotNewTables == Off
    requires config.filters == FilterLists(None, None, Some("b,a"), None)
    requires stored.filterInfo == Some(FilterLists(None, None, Some("a,b"), None))
    ensures StartPlan(WrittenSeparator, config, Some(stored), true, server).outcome == Ok(ReaderChain([], None))
    ensures StartPlan(IntendedSeparator, config, Some(stored), true, server).outcome == Ok(ReaderChain([Binlog], None))
  {
    SlashSeparatorReportsReorderedList();
  }
}
