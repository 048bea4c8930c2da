# MySQL connector task: startup decision and reader pipeline

This project models the core of the Debezium MySQL connector task, `MySqlConnectorTask`.
On `start` the task reads the offsets stored for its logical server. It then decides one of three things:

- resume the binlog from the recorded position;
- take a snapshot first;
- refuse to start, because resuming would silently lose data.

It then builds the ordered chain of readers:

- a timed blocker, a snapshot, a blocker or the binlog;
- or, when tables were newly added to the filters, a parallel snapshot, a reconciling reader and a unified binlog reader.

After building the chain it initializes and starts it. Any failure in `start` calls `stop` before the error is rethrown as a `ConnectException`.

Modules, one file each:

- `Wrappers` (`wrappers.dfy`): `Option` for Java's nullable values, `Result`.
- `JavaText` (`java_text.dfy`): `String.trim`, `endsWith` and `equalsIgnoreCase`.
- `ListSplit` (`list_split.dfy`): `String.split` for the separator the task passes, `"/s*,/s*"`, and for the separator it evidently meant, `"\\s*,\\s*"`. The split is modelled as Java performs it: a left-to-right scan, greedy matches, the whole string when nothing matches, and trailing empty pieces dropped.
- `FilterDelta` (`filter_delta.dfy`): `hasExclusiveElements` and `newTablesInConfig`.
- `ServerChecks` (`server_checks.dfy`): the recorded position (`SourceInfo`), the server's answers (`Server`), `isBinlogAvailable`, `earliestBinlogFilename`, the purge warnings and `isRowBinlogEnabled`, as functions.
- `StartDecision` (`start_decision.dfy`): the resume decision table, the reader-chain composition and their combination `StartPlan`, with the lemmas for each case.
- `ConnectorTask` (`connector_task.dfy`): the task object `MySqlConnectorTask`.
  - Its fields are `hasContext`, `taskContext`, `connectionContext` and `readers`. Two more fields record what the task did: a log of collaborator calls and a log of warnings.
  - Its methods are proved against the functions above. `start` is split into `DecideResume`, `ComposeChain`, `RunStartup` (the `try` block) and `Start` (the `catch`). `stop` and `completeReaders` are modelled with their guards.
  - The module also holds the loop that reads result-set rows and the classification of throwables.

The database is never queried. The server's answers are fields of `Server`:

- the known GTID set;
- the rows of `SHOW BINARY LOGS`;
- the `binlog_format` value;
- whether GTID mode is on.

GTID set containment after `retainAll` is the function-valued field `Server.gtidCovers`. Whether schema history exists is an input, and so is what each reader-chain call throws.

Behaviour of the code that is easy to misread (the model follows the code):

- Stamping the configured filters on a position without filter lists happens on every binlog start, before the new-table check. After it, the check always answers false.
- With new tables and `snapshot.new.tables` not `PARALLEL`, the code adds no reader at all. The chain is empty.
- A refused start leaves `readers` as it was. `readers` is assigned only after the whole chain is built. So the cleanup `stop` stops and destroys only a chain that was fully built. It runs `stop` then `destroy` on the chain as a whole.
- `completeReaders` dereferences the task context (line 430) before its null check (line 433). Without a task context it throws and changes nothing.
- `start` reads the offsets through the host context (line 71) before anything else. Without a host context, for example after `completeReaders` cleared it, `start` throws at once, `stop` does nothing, and the failure is rethrown wrapped in a ConnectException.

The new-table check splits the filter lists with the separator at line 315. `ComposeReaders`, `StartPlan` and the methods `ComposeChain`, `RunStartup` and `Start` take that separator as a parameter `sep`, and every property of them is proved for either separator. The code as written is `sep == WrittenSeparator` (`"/s*,/s*"`). The evidently intended behaviour is `sep == IntendedSeparator` (`"\\s*,\\s*"`); see "## Findings".

## Model

| member | source | states |
|---|---|---|
| `JavaText.TrimIsEmpty` | debezium-connector-mysql/src/main/java/io/debezium/connector/mysql/MySqlConnectorTask.java:452-454 | a GTID text trims to empty exactly when every character is one `trim()` removes (code at most U+0020) |
| `JavaText.TrimStart` | debezium-connector-mysql/src/main/java/io/debezium/connector/mysql/MySqlConnectorTask.java:452 | the result is a suffix, starts with a kept character, and everything cut off is trimmed away |
| `JavaText.TrimEnd` | debezium-connector-mysql/src/main/java/io/debezium/connector/mysql/MySqlConnectorTask.java:452 | the result is a prefix, ends with a kept character, and everything cut off is trimmed away |
| `JavaText.Trim` | debezium-connector-mysql/src/main/java/io/debezium/connector/mysql/MySqlConnectorTask.java:452 | the result is the slice of the original that starts and ends with a character `trim()` keeps, and every character cut off on either side is one `trim()` removes |
| `JavaText.UpperAscii` | debezium-connector-mysql/src/main/java/io/debezium/connector/mysql/MySqlConnectorTask.java:542 | upper-casing never yields a lower-case letter, maps a lower-case letter to the upper-case one that lower-cases back to it, and leaves other characters alone |
| `JavaText.LowerAscii` | debezium-connector-mysql/src/main/java/io/debezium/connector/mysql/MySqlConnectorTask.java:542 | lower-casing never yields an upper-case letter, maps upper-case letters to lower-case ones, and leaves other characters alone |
| `JavaText.LowerUpperRoundTrip` | debezium-connector-mysql/src/main/java/io/debezium/connector/mysql/MySqlConnectorTask.java:542 | an upper-case letter lower-cases to the letter at the same place in the lower-case alphabet (`'A'` to `'a'`), which upper-cases back to it |
| `JavaText.UpperLowerRoundTrip` | debezium-connector-mysql/src/main/java/io/debezium/connector/mysql/MySqlConnectorTask.java:542 | a lower-case letter upper-cases to the letter at the same place in the upper-case alphabet (`'a'` to `'A'`), which lower-cases back to it |
| `JavaText.EndsWith` | debezium-connector-mysql/src/main/java/io/debezium/connector/mysql/MySqlConnectorTask.java:151 | true iff the suffix fits and matches the last characters of the string, position by position |
| `JavaText.EqualsIgnoreCase` | debezium-connector-mysql/src/main/java/io/debezium/connector/mysql/MySqlConnectorTask.java:542 | false against null, only for strings of equal length, and always for a string against itself; the letters are stated by `UpperLetterIgnoringCase` and `ServerChecks.RowBinlogEnabled` |
| `ListSplit.Split` | debezium-connector-mysql/src/main/java/io/debezium/connector/mysql/MySqlConnectorTask.java:324-325 | the empty string splits into one empty piece, and a split into several pieces never ends with an empty one (Java drops trailing empty pieces); the pieces themselves are stated by `SplitWithoutSlash` and `SplitJoinRoundTrip` |
| `ListSplit.SplitWithoutSlash` | debezium-connector-mysql/src/main/java/io/debezium/connector/mysql/MySqlConnectorTask.java:315-325 | with the separator as written, a list without '/' comes back as one piece, commas included |
| `ListSplit.SplitJoinRoundTrip` | debezium-connector-mysql/src/main/java/io/debezium/connector/mysql/MySqlConnectorTask.java:315-325 | with the intended separator, splitting a comma-joined list of clean names gives back exactly those names |
| `FilterDelta.HasExclusiveElements` | debezium-connector-mysql/src/main/java/io/debezium/connector/mysql/MySqlConnectorTask.java:318-326 | false for a null or empty `a`; true for a non-empty `a` against a null or empty `b`; otherwise true iff some piece of `a` is not a piece of `b` |
| `FilterDelta.NoExclusiveElementsOfItself` | debezium-connector-mysql/src/main/java/io/debezium/connector/mysql/MySqlConnectorTask.java:318-326 | a list has no elements exclusive of itself, for either separator |
| `FilterDelta.NoExclusiveElementsOfSuperlist` | debezium-connector-mysql/src/main/java/io/debezium/connector/mysql/MySqlConnectorTask.java:318-326 | a list whose pieces all occur in a non-empty `b` has nothing exclusive of `b` |
| `FilterDelta.NewTablesInConfig` | debezium-connector-mysql/src/main/java/io/debezium/connector/mysql/MySqlConnectorTask.java:314-353 | false without stored filter lists and false when the stored lists equal the configured ones; otherwise the OR of whitelist gained (config against stored) and blacklist lost (stored against config) |
| `FilterDelta.AddedWhitelistedTableIsNew` | debezium-connector-mysql/src/main/java/io/debezium/connector/mysql/MySqlConnectorTask.java:341-343 | a configured table-whitelist entry missing from the stored whitelist is reported as new tables |
| `FilterDelta.UnblacklistedTableIsNew` | debezium-connector-mysql/src/main/java/io/debezium/connector/mysql/MySqlConnectorTask.java:348-350 | a stored table-blacklist entry that the configured blacklist no longer has is reported as new tables |
| `FilterDelta.ReorderedListHasNoExclusiveElements` | debezium-connector-mysql/src/main/java/io/debezium/connector/mysql/MySqlConnectorTask.java:315-325 | with the intended separator, a reordered (or shrunk) list of clean names has no exclusive elements |
| `FilterDelta.SlashSeparatorReportsReorderedList` | debezium-connector-mysql/src/main/java/io/debezium/connector/mysql/MySqlConnectorTask.java:315-325 | with the separator as written, the whitelist "b,a" has elements exclusive of the stored "a,b"; with the intended one it has none |
| `ServerChecks.BinlogAvailable` | debezium-connector-mysql/src/main/java/io/debezium/connector/mysql/MySqlConnectorTask.java:449-499 | a blank recorded GTID set is available; a non-blank one iff the server knows a non-blank set covering it; without GTIDs, a null or empty file name is available and any other iff the server lists it |
| `ServerChecks.EarliestBinlog` | debezium-connector-mysql/src/main/java/io/debezium/connector/mysql/MySqlConnectorTask.java:506-522 | null iff the server lists no binlog, else the first one listed |
| `ServerChecks.PurgeWarnings` | debezium-connector-mysql/src/main/java/io/debezium/connector/mysql/MySqlConnectorTask.java:148-153 | warns that no binlog exists iff there is none, and that binlogs may be purged iff the earliest name does not end in 00001 |
| `ServerChecks.RowBinlogEnabled` | debezium-connector-mysql/src/main/java/io/debezium/connector/mysql/MySqlConnectorTask.java:529-543 | true iff the `binlog_format` value is present and spells ROW in any case; a missing value (default "") is false |
| `StartDecision.ResumeDecision` | debezium-connector-mysql/src/main/java/io/debezium/connector/mysql/MySqlConnectorTask.java:67-161 | never refuses without offsets; old filters exactly when the offsets carry filter info; warnings only without offsets and with snapshots never allowed; resuming stored offsets without a snapshot requires history, no snapshot in effect and an available binlog. Each case is stated by the `Offsets*` and `NoOffsets*` lemmas below |
| `StartDecision.ComposeReaders` | debezium-connector-mysql/src/main/java/io/debezium/connector/mysql/MySqlConnectorTask.java:163-236 | a refusal of the decision is passed through; the snapshot decision, warnings, filters and history are kept; a chain with a binlog reader needs a row-format binlog. The chain shapes are stated by `SnapshotChain` and `BinlogChain` |
| `StartDecision.StartPlan` | debezium-connector-mysql/src/main/java/io/debezium/connector/mysql/MySqlConnectorTask.java:67-236 | apart from the refusals of the resume decision, a start fails only on a binlog that is not in row format; the rest is stated by `NeverResumesUnavailablePosition`, `NeverResumesInterruptedSnapshot`, `ChainShape` and `RowFormatRefusals` |
| `StartDecision.NoOffsetsSnapshotNeverAllowed` | debezium-connector-mysql/src/main/java/io/debezium/connector/mysql/MySqlConnectorTask.java:132-153 | no offsets, snapshots never allowed: no snapshot, start at ("", 0), history storage and history initialized, all filters, purge warnings |
| `StartDecision.NoOffsetsSnapshotAllowed` | debezium-connector-mysql/src/main/java/io/debezium/connector/mysql/MySqlConnectorTask.java:154-160 | no offsets, snapshots allowed: a snapshot over all filters from a fresh position |
| `StartDecision.NoOffsetsNeverRefused` | debezium-connector-mysql/src/main/java/io/debezium/connector/mysql/MySqlConnectorTask.java:132-161 | without offsets the resume decision never refuses |
| `StartDecision.OffsetsChooseFilters` | debezium-connector-mysql/src/main/java/io/debezium/connector/mysql/MySqlConnectorTask.java:73-79 | with offsets the context keeps the recorded position and uses the recorded filters iff the offsets carry filter info |
| `StartDecision.OffsetsWithoutHistory` | debezium-connector-mysql/src/main/java/io/debezium/connector/mysql/MySqlConnectorTask.java:83-99 | missing history refuses unless schema-only recovery; then refused iff the binlog is gone, else a snapshot and history storage initialized |
| `StartDecision.OffsetsInterruptedSnapshot` | debezium-connector-mysql/src/main/java/io/debezium/connector/mysql/MySqlConnectorTask.java:103-115 | history loaded; a position taken mid-snapshot refuses when snapshots are never allowed, else restarts the snapshot |
| `StartDecision.InterruptedSnapshotIgnoresServer` | debezium-connector-mysql/src/main/java/io/debezium/connector/mysql/MySqlConnectorTask.java:105-115 | in the mid-snapshot case the decision is the same whatever the server answers |
| `StartDecision.OffsetsCompletePosition` | debezium-connector-mysql/src/main/java/io/debezium/connector/mysql/MySqlConnectorTask.java:116-129 | a complete position resumes the binlog if available; if not, refused without snapshot-when-needed, else a snapshot |
| `StartDecision.SnapshotChain` | debezium-connector-mysql/src/main/java/io/debezium/connector/mysql/MySqlConnectorTask.java:176-198 | snapshot path: timed blocker iff non-zero delay, snapshot, then blocker and completion message if snapshot-only, else the binlog or refusal without a row binlog |
| `StartDecision.BinlogChain` | debezium-connector-mysql/src/main/java/io/debezium/connector/mysql/MySqlConnectorTask.java:163-234 | binlog path: empty GTID set iff none recorded and GTID mode on; filters stamped iff none recorded; refused without a row binlog; then [Binlog], the parallel chain, or no reader |
| `StartDecision.UnfilteredPositionResumesBinlog` | debezium-connector-mysql/src/main/java/io/debezium/connector/mysql/MySqlConnectorTask.java:200-234 | a position without filter lists is stamped and then resumes with exactly the binlog reader |
| `StartDecision.NeverResumesUnavailablePosition` | debezium-connector-mysql/src/main/java/io/debezium/connector/mysql/MySqlConnectorTask.java:67-161 | a start that tails the binlog from stored offsets only does so when the server still has the position |
| `StartDecision.NeverResumesInterruptedSnapshot` | debezium-connector-mysql/src/main/java/io/debezium/connector/mysql/MySqlConnectorTask.java:103-115 | a position recorded mid-snapshot never leads to a start without snapshot |
| `StartDecision.ChainShape` | debezium-connector-mysql/src/main/java/io/debezium/connector/mysql/MySqlConnectorTask.java:172-236 | a chain reading the binlog implies a row binlog; snapshot reader iff snapshot; timed blocker iff snapshot with delay; completion message iff snapshot-only |
| `StartDecision.RowFormatRefusals` | debezium-connector-mysql/src/main/java/io/debezium/connector/mysql/MySqlConnectorTask.java:169-211 | after the resume decision, startup is refused iff the binlog is not in row format and the run is not snapshot-only |
| `StartDecision.ReorderedWhitelistAtStartup` | debezium-connector-mysql/src/main/java/io/debezium/connector/mysql/MySqlConnectorTask.java:214-230 | with the separator as written, a binlog start whose configured table whitelist "b,a" reorders the stored "a,b" adds no reader when parallel snapshots are off; with the intended separator it resumes the binlog |
| `ConnectorTask.Classify` | debezium-connector-mysql/src/main/java/io/debezium/connector/mysql/MySqlConnectorTask.java:253-260 | a ConnectException is rethrown unchanged; an interruption or any other throwable becomes a new ConnectException caused by it |
| `ConnectorTask.ClassifyKeepsOriginal` | debezium-connector-mysql/src/main/java/io/debezium/connector/mysql/MySqlConnectorTask.java:253-260 | what is rethrown is the original throwable or has it as cause |
| `ConnectorTask.ClassifyIdempotent` | debezium-connector-mysql/src/main/java/io/debezium/connector/mysql/MySqlConnectorTask.java:257-259 | classifying an already classified exception changes nothing |
| `ConnectorTask.StopCalls` | debezium-connector-mysql/src/main/java/io/debezium/connector/mysql/MySqlConnectorTask.java:398-417 | `stop` calls something iff there is a host context and readers; then stop comes first, and destroy follows iff stop did not throw, and nothing else (the calls are a prefix of `[stop, destroy]`) |
| `ConnectorTask.StopThrown` | debezium-connector-mysql/src/main/java/io/debezium/connector/mysql/MySqlConnectorTask.java:398-417 | `stop` throws nothing when it calls nothing; the stop fault when only stop was called; else the destroy fault |
| `ConnectorTask.ReadersAfter` | debezium-connector-mysql/src/main/java/io/debezium/connector/mysql/MySqlConnectorTask.java:238 | the readers field holds the new chain, with the given faults, iff the decision produced one, else keeps its value |
| `ConnectorTask.ReaderStartCalls` | debezium-connector-mysql/src/main/java/io/debezium/connector/mysql/MySqlConnectorTask.java:241-243 | no reader calls after a refusal; after a successful decision initialize comes first, and start follows iff initialize did not throw, and nothing else (the calls are a prefix of `[initialize, start]`) |
| `ConnectorTask.StartupThrown` | debezium-connector-mysql/src/main/java/io/debezium/connector/mysql/MySqlConnectorTask.java:66-243 | a refusal throws its ConnectException; otherwise the initialize fault if there is one, else the start fault, so nothing is thrown iff neither throws |
| `ConnectorTask.ReadRows` | debezium-connector-mysql/src/main/java/io/debezium/connector/mysql/MySqlConnectorTask.java:476-483 | the list filled row by row holds exactly the rows, in order |
| `ConnectorTask.MySqlConnectorTask.constructor` | debezium-connector-mysql/src/main/java/io/debezium/connector/mysql/MySqlConnectorTask.java:53-54 | a new task has no task context, connection context or readers |
| `ConnectorTask.MySqlConnectorTask.IsBinlogAvailable` | debezium-connector-mysql/src/main/java/io/debezium/connector/mysql/MySqlConnectorTask.java:449-499 | the answer equals `BinlogAvailable` of the context's position and the server |
| `ConnectorTask.MySqlConnectorTask.EarliestBinlogFilename` | debezium-connector-mysql/src/main/java/io/debezium/connector/mysql/MySqlConnectorTask.java:506-522 | the answer equals `EarliestBinlog` of the server's binlog list |
| `ConnectorTask.MySqlConnectorTask.IsRowBinlogEnabled` | debezium-connector-mysql/src/main/java/io/debezium/connector/mysql/MySqlConnectorTask.java:529-543 | the answer equals `RowBinlogEnabled` of the server's format value |
| `ConnectorTask.MySqlConnectorTask.DecideResume` | debezium-connector-mysql/src/main/java/io/debezium/connector/mysql/MySqlConnectorTask.java:67-161 | the task context, snapshot decision, refusal and warnings are those of `ResumeDecision` |
| `ConnectorTask.MySqlConnectorTask.ComposeChain` | debezium-connector-mysql/src/main/java/io/debezium/connector/mysql/MySqlConnectorTask.java:163-236 | the updated task context and the chain or refusal are those of `ComposeReaders` for the same separator |
| `ConnectorTask.MySqlConnectorTask.RunStartup` | debezium-connector-mysql/src/main/java/io/debezium/connector/mysql/MySqlConnectorTask.java:66-243 | without a host context: throws a NullPointerException at line 71 and changes nothing; with one: the new fields, the reader calls and what is thrown are those of `StartPlan` (for the same separator) followed by initialize and start |
| `ConnectorTask.MySqlConnectorTask.Start` | debezium-connector-mysql/src/main/java/io/debezium/connector/mysql/MySqlConnectorTask.java:61-264 | without a host context: rethrows the wrapped NullPointerException and changes nothing; with one: on a throw, `stop` runs on the readers then present before the rethrow; what is rethrown is the classified original, whatever the cleanup throws |
| `ConnectorTask.MySqlConnectorTask.Stop` | debezium-connector-mysql/src/main/java/io/debezium/connector/mysql/MySqlConnectorTask.java:397-417 | nothing without a host context or readers; otherwise stop, then destroy unless stop threw |
| `ConnectorTask.MySqlConnectorTask.CompleteReaders` | debezium-connector-mysql/src/main/java/io/debezium/connector/mysql/MySqlConnectorTask.java:429-441 | with a task context: shut it down, drop any shutdown failure, clear the host context; without one: throws and changes nothing |
| `ConnectorTask.StopAfterCompletion` | debezium-connector-mysql/src/main/java/io/debezium/connector/mysql/MySqlConnectorTask.java:398-441 | after `completeReaders`, `stop` makes no further call and throws nothing |
| `ConnectorTask.StartAfterCompletion` | debezium-connector-mysql/src/main/java/io/debezium/connector/mysql/MySqlConnectorTask.java:66-71 | after `completeReaders`, `start` makes no call, keeps the readers and rethrows the NullPointerException wrapped in a ConnectException |
| `ConnectorTask.StartFailureCleanup` | debezium-connector-mysql/src/main/java/io/debezium/connector/mysql/MySqlConnectorTask.java:61-264 | on a fresh task whose readers fail to start: a refused start makes no call and rethrows the refusal; a built chain is initialized, started, stopped and destroyed, and the start fault is rethrown |

## Left out

- `poll` (lines 383-395): it runs concurrently with `stop`. Concurrency, `volatile` fields and `synchronized` are not modelled.
- `version()`, the logging-context push and restore, and all log messages other than the two purge warnings: host plumbing and output.
- The JDBC queries and the wrapping of their `SQLException` into a `ConnectException` (lines 485-487, 516-518, 537-539): I/O. Their results are fields of `Server`.
- GtidSet parsing, `retainAll` and `isContainedWithin`: the GtidSet class is not part of this model. The combined test is the abstract `Server.gtidCovers`.
- `Filters.Builder` (`getAllFilters`, `getOldFilters`, `getNewFilters`): not part of this model. The task context records only which filters it was created with (`AllFilters` or `OldFilters`). The set algebra of old, new and all filters is not stated.
- The reader classes: represented as tags in `ReaderKind`. Not modelled:
  - the second, all-filters task context of the unified binlog reader (line 221);
  - the reconciliation callback and its overwrite by the chain (lines 223-225, 266-302);
  - the task's own completion callback, `readers.uponCompletion(this::completeReaders)` (line 239): `CompleteReaders` is modelled as a method, but nothing in the model calls it when the chain completes;
  - `generateInsertEvents` (line 179);
  - the snapshot delay's timing.
- Exceptions thrown by collaborators other than the reader chain are not modelled. These include task-context creation, history loading and history-storage initialization. Only reader-chain initialize, start, stop and destroy take a fault as input. A failure of the shutdown in `completeReaders` is logged and dropped (line 434), so it is not an input.
- `Thread.interrupted()` at line 254, which clears the thread's interrupt status: thread state, not modelled.
- The texts of the ConnectException messages. Refusals carry a `StartError` tag instead. The snapshot-only completion message is kept verbatim.
- `SourceInfo` internals: the parsing done by `setOffset`, and the effect of `setBinlogStartPoint` beyond file name and position. Stamping filter data from the configuration is modelled as recording the configured lists.
- The snapshot-mode predicates (`isSnapshotNeverAllowed` and the like) come from MySqlTaskContext, which is not part of this model. They are independent booleans of `Config`.
- `JavaText.EqualsIgnoreCase`: folds ASCII letters only. Java's Unicode case mapping is not modelled. For the constant "ROW" the model assumes that no other character folds to R, O or W.

## Findings

| source | as written | input that shows it | evidently intended | confidence | as-written member | corrected member |
|---|---|---|---|---|---|---|
| debezium-connector-mysql/src/main/java/io/debezium/connector/mysql/MySqlConnectorTask.java:315 | the list separator is the regex `"/s*,/s*"`: a slash, any letters s, a comma, a slash, any letters s. It never cuts a plain comma-separated list, so each list is one opaque piece. | stored table whitelist `"a,b"`, configured `"b,a"`: `hasExclusiveElements` is true, so new tables are reported. Without parallel snapshots this yields a chain with no reader at startup (`StartDecision.ReorderedWhitelistAtStartup`). | `"\\s*,\\s*"`: split on commas with optional surrounding whitespace, so a reordered list names no new table | high; not executed | `FilterDelta.SlashSeparatorReportsReorderedList` | `FilterDelta.ReorderedListHasNoExclusiveElements` |
