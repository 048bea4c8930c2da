/**
 * The recorded position (SourceInfo) and the checks the task makes against the
 * MySQL server: is the recorded binlog position still available, which binlog
 * file is the earliest one, and is the binlog in row format.
 */
module ServerChecks {
  import opened Wrappers
  import opened JavaText
  import opened FilterDelta

  /**
   * Where capture left off: the completed GTID set as text, the binlog file and
   * position, whether the position was recorded in the middle of a snapshot, and
   * the filter lists that were in use (absent in positions recorded before the
   * filter lists were stored). `None` stands for a null value.
   */
  datatype SourceInfo = SourceInfo(
    gtidSet: Option<string>,
    binlogFilename: Option<string>,
    binlogPosition: int,
    snapshotInEffect: bool,
    filterInfo: Option<FilterLists>)

  /** The position of a task that found no stored offsets. */
  const FreshSource := SourceInfo(None, None, 0, false, None)

  /**
   * What the server answers. `knownGtidSet` is its GTID set as text (null when it
   * uses none), `binaryLogs` the first column of SHOW BINARY LOGS in row order,
   * `binlogFormat` the value column of the `binlog_format` row (absent when there
   * is no row or the value is null), `gtidModeEnabled` whether GTID mode is on.
   * `gtidCovers(stored, available)` stands for parsing both texts as GTID sets,
   * keeping of the stored set only the source UUIDs the connector is configured
   * to accept, and testing that what remains is contained in the available set.
   * The accepted UUIDs (the task context's GTID source filter) are configuration,
   * not an answer of the server; they are folded into this one test because the
   * model never looks at them on their own.
   */
  datatype Server = Server(
    knownGtidSet: Option<string>,
    binaryLogs: seq<string>,
    binlogFormat: Option<string>,
    gtidModeEnabled: bool,
    gtidCovers: (string, string) -> bool)

  /**
   * Whether the server still has the recorded position. A recorded GTID set decides
   * on its own: blank means start at the beginning; otherwise the server must know
   * a non-blank GTID set that covers it. Without a GTID set, a null or empty binlog
   * file name is available and any other name must be one of the server's binlogs.
   */
  function BinlogAvailable(source: SourceInfo, server: Server): (r: bool)
    ensures source.gtidSet.Some? && (forall i :: 0 <= i < |source.gtidSet.value| ==> TrimmedAway(source.gtidSet.value[i])) ==> r
    ensures source.gtidSet.Some? && Trim(source.gtidSet.value) != [] ==>
      (r <==> server.knownGtidSet.Some? && Trim(server.knownGtidSet.value) != [] && server.gtidCovers(source.gtidSet.value, server.knownGtidSet.value))
    ensures source.gtidSet.None? ==>
      (r <==> source.binlogFilename.None? || source.binlogFilename.value == [] || source.binlogFilename.value in server.binaryLogs)
  {
    TrimIsEmpty(if source.gtidSet.Some? then source.gtidSet.value else []);
    match source.gtidSet
    case Some(recorded) =>
      if Trim(recorded) == [] then true
      else if server.knownGtidSet.None? || Trim(server.knownGtidSet.value) == [] then false
      else server.gtidCovers(recorded, server.knownGtidSet.value)
    case None =>
      match source.binlogFilename
      case None => true
      case Some(name) => if name == "" then true else name in server.binaryLogs
  }

  /** The first binlog the server lists, or null when it lists none. */
  function EarliestBinlog(logNames: seq<string>): (r: Option<string>)
    ensures r.None? <==> logNames == []
    ensures r.Some? ==> r.value in logNames && r.value == logNames[0]
  {
    if logNames == [] then None else Some(logNames[0])
  }

  /** Warnings written when starting at the beginning of the binlog without a snapshot. */
  datatype Warning =
    | NoBinlogAvailable          // the server lists no binlog at all
    | BinlogsMayHaveBeenPurged   // the earliest binlog is not a first one (its name does not end in 00001)

  function PurgeWarnings(earliest: Option<string>): (w: seq<Warning>)
    ensures |w| <= 1
    ensures w == [NoBinlogAvailable] <==> earliest.None?
    ensures w == [BinlogsMayHaveBeenPurged] <==> earliest.Some? && !EndsWith(earliest.value, "00001")
  {
    if earliest.None? then [NoBinlogAvailable]
    else if !EndsWith(earliest.value, "00001") then [BinlogsMayHaveBeenPurged]
    else []
  }

  /**
   * Whether the binlog is in row format: the `binlog_format` value, defaulting to
   * the empty string, equals "ROW" ignoring case.
   */
  function RowBinlogEnabled(format: Option<string>): (r: bool)
    ensures r <==> && format.Some? && |format.value| == 3
                   && (format.value[0] == 'R' || format.value[0] == 'r')
                   && (format.value[1] == 'O' || format.value[1] == 'o')
                   && (format.value[2] == 'W' || format.value[2] == 'w')
  {
    var mode := if format.Some? then format.value else "";
    UpperLetterIgnoringCase('R', if |mode| > 0 then mode[0] else 'R');
    UpperLetterIgnoringCase('O', if |mode| > 1 then mode[1] else 'O');
    UpperLetterIgnoringCase('W', if |mode| > 2 then mode[2] else 'W');
    EqualsIgnoreCase("ROW", Some(mode))
  }
}
