# Verified model of the collector components

This project models the five hardest parts of a repository of OpenTelemetry Collector components and proves what they
keep. `dafny verify dfyconfig.toml` checks everything.

**The rotating Parquet writer** (`Options`, `FileNames`, `Disk`, `WriterSpec`, `WriterInvariant`, `WriterSteps`,
`WriterOps`, `WriterAccounts`, `WriterProcess`, `WriterTheorems`, `WriterCalls`, `WriterInterleaving`, `WriterSafety`,
`WriterPartition`, `WriterGreedy`, `WriterAge`, `WriterStop`, `SignalWriter`, `Exporter`, `Push`). A writer puts
batches into `part-<nanos>-<seq>.parquet.part` and, on a row, byte or age limit or on close, writes the footer, syncs,
closes and renames. Every one of these calls may fail. `SignalWriter` is the class whose fields change in place under
the mutex, one system call at a time; each of its methods is proved equal to a function of `WriterSpec`. The theorems
are about all runs of any number of such writers sharing one disk, one counter and one flush loop, each operation with
any outcome of its calls. `WriterProcess` takes an operation as one step; `WriterInterleaving` issues its calls one by
one, those of different writers in any order, and the theorems of `WriterSafety` hold at every moment of such a run,
with any number of writers between two system calls, on a disk with the files of earlier processes. A ledger records
which batch went into which file. `Exporter` has start, flush loop and shutdown, and `Push` ties the tables of a tree
to the batches its writers get.

**The columnar builders** (`GoNumbers`, `Attributes`, `Columns`, `BuilderSet`, `Schemas`, `MetricsRows`,
`MetricsColumns`, `MetricsTable`, `TracesTable`). A metrics or traces tree is flattened into append-only column
buffers: list columns are offsets into a child buffer, struct children are one buffer per field, nullable columns
carry validity bits. Reading the buffers back gives the rows of the data points in document order.

**SNMP traps and configuration** (`Bits`, `Ber`, `SnmpConfig`, `TrapAuth`). The BER splitter works with shifts and ors
over the length octets (section 8.1.3 of ITU-T X.690); the walker over the message layout (section 6 of RFC 3412) sits
on top of it; the security level a trap must claim is tied to what validation and the USM builder produce.

**SNMP table collection** (`TableCollector`, `MetricsBuilder`). Several walks joined on an OID suffix are a relational
join; building the metrics keeps exactly the metrics of known type with their numeric points.

**Protocols** (`PollProtocol`, `NatsProtocol`, `Registry`). Step relations with inductive invariants over every
interleaving: the SNMP receiver's fork/join and connection ownership, the JetStream receiver's two-phase start and
message disposition, and the shared-instance registry of both factories (one generic model).

## Assumptions

- `fw.Write` of the Parquet library is all or nothing. A failed `os.Rename` did not rename. `Close` of a descriptor
  after a failed step is issued and its result ignored, as in the code.
- The directory may hold any files before the process starts, such as those of earlier processes, as long as those
  under final names are whole and the names that the directories and clock readings of the run can make are free
  (`Startable`).
- The mutex is one per writer: it orders the operations of that writer only, and operations of different writers
  interleave call by call. An operation begins, in the model, when it takes its file number, or at its first call if
  it opens no file; what other goroutines can see of it from there on is the system calls and, at its end, the row
  counter.
- A writer's `dir` is the cleaned directory followed by a separator, so that a part path is a concatenation.
- `Stop` of a ticker leaves no tick to be received, as since Go 1.23 (go.mod:3 asks for 1.26.6).
- The ticker fires every flush interval and, before shutdown, the loop handles a tick without letting time pass. An
  operation reads the clock when it begins: one reading for the name and one for the age, any two numbers. The
  theorems on ages are about `WriterProcess`, where an operation takes no time.
- `json.Marshal` of an attribute map fails exactly if it holds a float that is not finite, at any depth.
- Row counts and the file counter are unbounded; their `int64` form would wrap after 2^63 rows or opens.
- A walk of an SNMP agent is a snapshot: the answer for an OID is one map, or a failure. Map iteration order is
  arbitrary.
- JetStream may deliver any message again at any time; every answer may fail to arrive.
- `int` has 64 bits where BER lengths are computed, so a 32-bit length never wraps there.
- Whether gosnmp's security table takes an entry is a parameter of `NewTrapper`.
- `strings.ToUpper` is a parameter of the theorems that mention it; those that need it ask that the empty string stays
  empty.
- Column names are constructors spelled as in the schemas (`SumOfValues` is the column "Sum", `PointAttributes` is
  "Attributes", and inside structs `QuantileName` is "Quantile" and `EventName` is "Name"). Float arithmetic is
  symbolic: a float is finite with some bits, NaN or an infinity, and the float of an integer is a term of its own.

## What the proofs found

- exporter/parquetexporter/README.md:11 says a file is rotated once it reaches the flush interval F. The loop only
  looks once per interval, so a file opened d after a tick can be open until 2F - d (`AgeReached`), and never longer
  (`AgeBound`). Hence a file can outlive the interval if and only if it was opened off a tick (`OutlivesIff`); it may
  still be closed in time by another limit.
- docs/superpowers/specs/2026-06-17-parquet-exporter-design.md:51 says no data is lost on stop. A rotation that fails
  leaves the rows in an orphan `.part` file: `StopCanLose` is a stop that publishes nothing of what was accepted. A
  stop that has closed every writer has lost nothing if and only if no rotation of a file with rows, on the stop or
  before, had its footer, sync, close or rename fail (`StopLosesNothingIff`).
- After `done` is closed the flush loop may still handle a tick (`LateTick`): a select takes either of two ready
  cases. This ends when the ticker is stopped (`NoTickAfterStop`), and the loop is over before shutdown goes on to
  close the writers (`NothingRunsAfterWait`).
- `write` returns an error when the rotation after it fails, so a batch can be refused although it was appended; it
  then lies in an orphan `.part` file, never in a published one (`RefusedNeverPublished`), so a retry does not
  duplicate it there.
- `max_repetitions` of 2^32 or more passes validation and is cut to 32 bits (`MaxRepetitionsKept` gives the exact
  condition, `MaxRepetitionsLost` an instance). Ports cannot be cut.
- For an entry with privacy but no authentication, `USM` builds noAuthNoPriv while `isAuthorized` demands authPriv
  (`PrivacyAloneDisagrees`). Exactly these entries disagree (`LevelsAgree`), and validation refuses them.
- A span of 2^63 ns or more gets a negative duration (`DurationIsElapsed`; `LongestWraps` is an instance).
- receiver/snmpreceiver/README.md:106 and docs/superpowers/specs/2026-04-16-snmp-receiver-design.md:105 let a lookup
  name the fields it resolves (`source_indexes`), in chains if need be. The code ignores the names and resolves the
  row index. Both agree if and only if the named fields give the row index (`LookupAsDocumentedIff`), as the
  documented example does (`OwnIndexIsTheKey`).

## Model

| member | source | states |
|---|---|---|
| FileNames.DecimalInjective | exporter/parquetexporter/writer.go:94 | two counters print alike only if they are equal |
| FileNames.CounterReadBack | exporter/parquetexporter/writer.go:93-95 | the counter can be read back from a part name, whatever the directory and the clock |
| FileNames.NamesNeverCollide | exporter/parquetexporter/writer.go:19-19 | two opens of a process never get the same part name, nor the same final name |
| FileNames.SamePartSameReading | exporter/parquetexporter/writer.go:94 | equal part names come from equal clock readings, whatever the directories and counters |
| FileNames.StripIsInjective | exporter/parquetexporter/writer.go:158-159 | two part names that strip to the same final name are the same |
| FileNames.PartIsNotFinal | exporter/parquetexporter/writer.go:94-95 | a part name is never a published name, and its stripped form always is one |
| FileNames.PartInDirectory | exporter/parquetexporter/writer.go:93-95 | the part name and the published name are the directory followed by "part-", the clock reading, a dash, the counter and the suffix |
| Disk.CrashKeepsPublished | exporter/parquetexporter/writer.go:114-120 | in a safe log of system calls, a crash after any call leaves every published file with all its chunks and its footer |
| WriterSteps.Publish | exporter/parquetexporter/writer.go:158-159 | the rename keeps safety because the part file already has its footer, is synced and closed |
| WriterSteps.RotateKeeps | exporter/parquetexporter/writer.go:121-169 | a rotation with any step failing keeps the invariant of the writer, the safety of the call log and the frame |
| WriterSteps.OpenKeeps | exporter/parquetexporter/writer.go:93-112 | so does opening a file, whether creating it or the Parquet writer on it fails |
| WriterSteps.PutKeeps | exporter/parquetexporter/writer.go:186-191 | so does appending a batch to the open file |
| WriterOps.WriteKeeps | exporter/parquetexporter/writer.go:178-204 | so does a whole write: open if needed, append, rotate at a limit, refuse on an error |
| WriterOps.AgeKeeps | exporter/parquetexporter/writer.go:206-216 | so does the age check |
| WriterOps.GuaranteeToOthers | exporter/parquetexporter/writer.go:93-204 | the calls of one writer's operation leave every file of every other writer as it was |
| WriterAccounts.WriteExtends | exporter/parquetexporter/writer.go:178-204 | a write only adds to the ledger: finished files stay, a successful write appends its batch, a failed one marks it refused, and the counter grows by what was published |
| WriterAccounts.RowsConserved | exporter/parquetexporter/writer.go:121-204 | appended rows are the published, the open and the orphaned rows together |
| WriterProcess.Reachable | exporter/parquetexporter/writer.go:93-222 | every state of every run of any number of writers with any faults satisfies the invariant, operations taken as one step |
| WriterInterleaving.Projects | exporter/parquetexporter/writer.go:93-222 | the operations begun in an interleaved run form a run of the process |
| WriterInterleaving.ReachableWorld | exporter/parquetexporter/writer.go:93-222 | at every moment of every interleaving of the calls of any number of writers: the log so far is safe, the calls each writer still owes will leave its files as its ledger says, and the rows counted and still to be counted are the published ones |
| WriterSafety.RowLedger | exporter/parquetexporter/writer.go:121-204 | in every interleaving, per writer, rows appended = published + open + orphaned; between its operations every file of its ledger is on the disk with exactly those contents; the rows-written counter is the published rows less those of operations that have not ended |
| WriterSafety.EveryPushAccountedFor | exporter/parquetexporter/writer.go:178-204 | every batch handed to a writer is in its ledger or was refused |
| WriterSafety.EachBatchInOneFile | exporter/parquetexporter/writer.go:178-204 | at every moment of every interleaving an appended batch, unless its append is still to be issued, lies in exactly one file of the disk, exactly once, under the part name or the published name of a file of its writer |
| WriterSafety.OnlyTheLastIsPending | exporter/parquetexporter/writer.go:186-191 | the append still to be issued can only be that of the last batch of a writer inside an operation |
| WriterSafety.RefusedNeverPublished | exporter/parquetexporter/writer.go:121-204 | at no moment is a batch whose write returns an error in a file under a published name |
| WriterSafety.PublicationSurvivesCrash | exporter/parquetexporter/writer.go:114-169 | a run cut between any two system calls, any number of writers inside operations, losing any unsynced data, leaves every file under a published name complete and unchanged |
| WriterSafety.NothingIsOverwritten | exporter/parquetexporter/writer.go:93-159 | no call of any interleaving truncates or replaces an existing file |
| WriterSafety.EarlierFilesStay | exporter/parquetexporter/writer.go:93-159 | every file that was there at the start, whatever its name and state, stays as it was |
| WriterSafety.RestartIsCovered | exporter/parquetexporter/writer.go:93-159 | what a crash at any moment leaves is a disk the next process may start on, provided its clock shows other readings |
| WriterTheorems.LateTick | exporter/parquetexporter/exporter.go:93-103 | a tick can be handled after `done` is closed, as long as the ticker is not stopped |
| WriterSafety.NoTickAfterStop | exporter/parquetexporter/exporter.go:126-133 | in every interleaving, once the ticker is stopped no tick waits, none comes and none is taken |
| WriterSafety.NothingRunsAfterWait | exporter/parquetexporter/exporter.go:93-144 | once the wait is over the loop has returned, is inside of no writer, and neither it nor the ticker can take a step |
| WriterSafety.ShutdownComesToRest | exporter/parquetexporter/exporter.go:126-144 | past the wait, when the close of every writer has begun and ended, no file is open and no operation has a call left, whatever else was interleaved, pushes aside |
| WriterSafety.QuietAfterShutdown | exporter/parquetexporter/exporter.go:126-144 | after such a run, without pushes, a further shutdown issues no call and changes no file, writer or counter, and no tick is handled |
| WriterPartition.NoFileOverfills | exporter/parquetexporter/writer.go:191-202 | with any faults, every file without its last batch has fewer than MaxRows rows |
| WriterPartition.FaultFreeRunsLoseNothing | exporter/parquetexporter/writer.go:178-222 | the files of a writer whose own calls do not fail are, in order, exactly the batches sent to it, whatever happens to the others |
| WriterAge.AgeBound | exporter/parquetexporter/exporter.go:93-111 | before shutdown no open file of any writer is older than F if it was opened at a tick, nor older than 2F - d if it was opened d after one |
| WriterAge.AgeRotationIsDue | exporter/parquetexporter/writer.go:206-216 | an age check leaves a file open exactly if it is younger than the flush interval |
| WriterAge.AgeReached | exporter/parquetexporter/exporter.go:93-111 | for every offset d a run in which a file opened d after a tick reaches that age |
| WriterAge.OutlivesIff | exporter/parquetexporter/exporter.go:93-111 | a file can get older than the flush interval if and only if it was not opened at a tick |
| WriterGreedy.GreedyIsUnique | exporter/parquetexporter/writer.go:197-199 | a sequence of batches has only one greedy partition |
| WriterGreedy.RowRotationIsGreedy | exporter/parquetexporter/writer.go:178-204 | if only the row limit closes files of a writer, its finished files and the open one are the greedy partition of the batches sent to it; ticks and other writers are arbitrary |
| WriterGreedy.OneRowGreedy | exporter/parquetexporter/writer.go:197-199 | the greedy partition of one-row batches has exactly full files and a shorter rest |
| WriterGreedy.OneRowBatchesThenClose | exporter/parquetexporter/writer.go:178-222 | N one-row batches, a shutdown and the close publish N / MaxRows files, rounded up, all but the last exactly full |
| WriterStop.ClosedWriterKeepsAllIff | exporter/parquetexporter/writer.go:121-222 | all rows a closed writer ever appended are published if and only if no rotation of a file with rows had a failing footer, sync, close or rename |
| WriterStop.StopLosesNothingIff | exporter/parquetexporter/exporter.go:126-144 | after all writers are closed the rows-written counter is all rows ever appended if and only if that held for all of them |
| WriterStop.StopCanLose | exporter/parquetexporter/exporter.go:126-144 | a run in which a write succeeds, the rename on stop fails, and nothing is published |
| SignalWriters.SignalWriter.OpenLocked | exporter/parquetexporter/writer.go:93-112 | the in-place method takes the step of the specification, fields, disk, counter and call log included |
| SignalWriters.SignalWriter.RotateLocked | exporter/parquetexporter/writer.go:121-169 | likewise; afterwards no file is open, whatever failed |
| SignalWriters.SignalWriter.Write | exporter/parquetexporter/writer.go:178-204 | likewise |
| SignalWriters.SignalWriter.MaybeRotateForAge | exporter/parquetexporter/writer.go:206-216 | likewise |
| SignalWriters.SignalWriter.Close | exporter/parquetexporter/writer.go:218-222 | likewise; afterwards no file is open |
| Exporter.FirstErrorIsFirst | exporter/parquetexporter/exporter.go:134-143 | the error kept is success exactly if all succeeded, and the first failure otherwise |
| Exporter.CloseAll | exporter/parquetexporter/exporter.go:134-143 | every non-nil writer is closed even if earlier ones failed, and the first error is returned |
| Exporter.RotateAllForAge | exporter/parquetexporter/exporter.go:105-111 | each writer keeps its file exactly if it was open and younger than the interval, whatever the others report |
| Exporter.ParquetExporter.Start | exporter/parquetexporter/exporter.go:64-91 | succeeds exactly if every writer could be made, and only then the loop runs; each writer made has the exporter's own configuration and its own subdirectory, spelled out, and no two share one |
| Exporter.ParquetExporter.AllWriters | exporter/parquetexporter/exporter.go:113-124 | lists every writer there is, each once, and nil only when start did not complete |
| Exporter.ParquetExporter.LoopStep | exporter/parquetexporter/exporter.go:93-103 | the select returns only after `done` is closed, may take a waiting tick even then, and touches no writer; going through the writers closes exactly the files old enough |
| Exporter.ParquetExporter.StopLoop | exporter/parquetexporter/exporter.go:126-133 | whatever the loop and the ticker do between the closing of `done` and the stop of the ticker: afterwards the wait group is zero, the goroutine gone and no tick left; no writer was opened; a second call changes nothing |
| Exporter.ParquetExporter.WaitForLoop | exporter/parquetexporter/exporter.go:131 | after the ticker is stopped the loop ends the rotation it is in, if any, and begins no other |
| Exporter.ParquetExporter.Shutdown | exporter/parquetexporter/exporter.go:126-144 | afterwards the loop is gone and every writer of the exporter is closed, also after a partial start; only writers found open are rotated and the first error is returned; with nothing open it succeeds and nothing changes |
| Exporter.ParquetExporter.ShutdownTwice | exporter/parquetexporter/exporter_test.go:15-26 | a second shutdown succeeds and leaves disk, counters and calls as the first did |
| Push.PushTraces | exporter/parquetexporter/exporter.go:146-153 | a tree without spans writes nothing; any other makes the step of one write, of a batch with a row per span, and no more |
| Push.PushMetrics | exporter/parquetexporter/exporter.go:164-178 | exactly the writers of tables with points make the step of one write, of a batch with as many rows, whatever the others report; other writers are untouched; the first error is returned |
| Push.WriteAll | exporter/parquetexporter/exporter.go:171-177 | every writer is attempted, each with its own batch, and the first error is kept |
| Columns.SlicesAppended | exporter/parquetexporter/metrics.go:65-81 | starting a list at the end of the child and appending items adds one list and leaves the earlier ones alone |
| Columns.CellAppended | exporter/parquetexporter/metrics.go:40-63 | a cell appended to its column becomes the next cell of the current row and nothing else changes |
| Columns.RowCompleted | exporter/parquetexporter/metrics.go:187-192 | when every column has its cell the row joins the finished rows |
| Columns.HoldsReads | exporter/parquetexporter/metrics.go:172-178 | all columns of a finished table have its row count and read back as its rows |
| Columns.ReadsOnce | exporter/parquetexporter/metrics.go:172-178 | a table reads back as only one list of rows |
| Builders.CountRecovered | exporter/parquetexporter/metrics.go:78-80 | a stored int64 gives the uint64 count back modulo 2^64 |
| Builders.BuilderSet.F64OrNull | exporter/parquetexporter/metrics.go:51-60 | an unset optional is read back as null, which no value is |
| Builders.BuilderSet.I64ListFromUint | exporter/parquetexporter/metrics.go:74-81 | the cell is the list of the counts |
| Builders.AppendExemplars | exporter/parquetexporter/metrics.go:101-120 | the struct child gains one aligned struct per exemplar |
| Builders.StructAppended | exporter/parquetexporter/metrics.go:104-118 | one value in every field of a struct child is one struct more, the earlier ones unchanged |
| Schemas.MetricsDistinct | exporter/parquetexporter/schema.go:72-117 | in every metrics schema each column is found by its own name |
| Schemas.TracesDistinct | exporter/parquetexporter/schema.go:51-61 | so it is in the traces schema |
| MetricsTable.Common | exporter/parquetexporter/metrics.go:83-98 | the fourteen shared columns get the cells that `CommonTold` is about, every lookup and builder type matching the schema |
| MetricsColumns.CommonTold | exporter/parquetexporter/metrics.go:83-98 | under each of the fourteen shared names stands its own value: resource, scope, service, metric, attributes, start, time and flags |
| MetricsColumns.HistogramTold | exporter/parquetexporter/metrics.go:206-222 | under each own column of a histogram's row stands its own value; an unset sum, minimum or maximum is null |
| MetricsColumns.ExpHistogramTold | exporter/parquetexporter/metrics.go:223-243 | likewise for exponential histograms, offsets and bucket counts included |
| MetricsColumns.SummaryTold | exporter/parquetexporter/metrics.go:244-263 | likewise for summaries |
| MetricsColumns.ExemplarTold | exporter/parquetexporter/metrics.go:101-120 | under each field name of an exemplar's struct stands its own value |
| MetricsColumns.QuantilesTold | exporter/parquetexporter/metrics.go:252-261 | each quantile has its level and its value under their own names |
| MetricsColumns.Int32Recovered | exporter/parquetexporter/metrics.go:97 | a stored int32 gives the uint32 flags back modulo 2^32 |
| MetricsColumns.PointTold | exporter/parquetexporter/metrics.go:181-265 | the row of a data point says that point, every column by its name, from its own metric, scope and resource |
| MetricsTable.AppendMetric | exporter/parquetexporter/metrics.go:181-265 | the table of the metric's type gains a row per data point; the other four stay as they are |
| MetricsTable.MetricsToRecords | exporter/parquetexporter/metrics.go:129-179 | a table comes out exactly for the kinds with points; read back, its rows are those points in document order, each column holding by its name the value of the point, its metric, scope and resource |
| MetricsRows.RowsFollowTheDocument | exporter/parquetexporter/metrics.go:144-170 | row r of a table is the r-th data point of its kind in document order, with its resource, scope and metric; none is missing |
| MetricsRows.EveryPointInOneTable | exporter/parquetexporter/metrics.go:181-265 | every data point of a known type has exactly one row in exactly one table |
| MetricsRows.HistogramRowKeeps | exporter/parquetexporter/metrics.go:213-220 | equal histogram rows come from points with equal counts, buckets, bounds and optional sum, minimum and maximum |
| MetricsRows.ExpHistogramRowKeeps | exporter/parquetexporter/metrics.go:230-241 | likewise for the scalars of exponential histograms |
| MetricsRows.ExpHistogramRowKeepsBuckets | exporter/parquetexporter/metrics.go:234-237 | likewise for their offsets and bucket counts |
| TracesTable.DurationIsElapsed | exporter/parquetexporter/traces.go:62-66 | the duration is the elapsed time, 0 for a span that does not end after it starts, if and only if that fits 63 bits; otherwise it is negative |
| TracesTable.LongestWraps | exporter/parquetexporter/traces.go:62-66 | a span of 2^63 ns gets the most negative duration |
| TracesTable.SpanHasItsRow | exporter/parquetexporter/traces.go:23-38 | each span has its row at the number of spans before it, with its resource and scope |
| TracesTable.RowIsASpan | exporter/parquetexporter/traces.go:23-38 | every row is some span's |
| TracesTable.SpanTold | exporter/parquetexporter/traces.go:45-94 | under each of the seventeen names of a span's row, and each field name of its events and links, stands its own value |
| TracesTable.AppendSpanRow | exporter/parquetexporter/traces.go:45-94 | every column gets exactly one cell, events and links included |
| TracesTable.TracesToRecord | exporter/parquetexporter/traces.go:18-40 | the table has a row per span and no other; read back, the row of each span says it, column by column, with its scope and resource |
| Attributes.SanitizeForJSON | exporter/parquetexporter/attributes.go:33-55 | the recursion over fresh containers computes the sanitized tree, in any map order |
| Attributes.SanitizedShape | exporter/parquetexporter/attributes.go:33-55 | same keys, lengths and finite values; nil in place of each non-finite float |
| Attributes.ShapeIsSanitized | exporter/parquetexporter/attributes.go:33-55 | and nothing else has that shape |
| Attributes.SanitizedIsFinite | exporter/parquetexporter/attributes.go:33-55 | no non-finite float survives at any depth |
| Attributes.SanitizeIsIdentityIff | exporter/parquetexporter/attributes.go:33-55 | the tree is unchanged if and only if all its floats were finite |
| Attributes.SanitizeTwice | exporter/parquetexporter/attributes.go:33-55 | sanitizing twice is sanitizing once |
| Attributes.AttributesToJSON | exporter/parquetexporter/attributes.go:15-30 | the fallback gives what sanitizing first would give, and an empty object only for an empty map |
| Bits.ShiftOr | receiver/snmpreceiver/internal/trapper/trapper.go:216 | shifting left by eight and or-ing an octet is multiplying by 256 and adding it |
| Bits.HighBit | receiver/snmpreceiver/internal/trapper/trapper.go:209-210 | masking the high bit of an octet tests and removes 128 |
| Ber.BerElement | receiver/snmpreceiver/internal/trapper/trapper.go:204-224 | the loop with its shifts and ors computes the split given by base-256 lengths, in bounds on every input |
| Ber.SplitOfEncoding | receiver/snmpreceiver/internal/trapper/trapper.go:204-224 | any accepted length form of any content followed by anything splits into exactly tag, content and rest |
| Ber.SplitIsEncoding | receiver/snmpreceiver/internal/trapper/trapper.go:204-224 | on success header, content and rest make up the input |
| Ber.SplitExact | receiver/snmpreceiver/internal/trapper/trapper.go:204-224 | the split succeeds with a result if and only if the input is an encoding of it |
| Ber.EncodingExists | receiver/snmpreceiver/internal/trapper/trapper.go:204-224 | every tag and content below 2^32 octets has an accepted encoding, which splits back into them |
| Ber.LengthFits | receiver/snmpreceiver/internal/trapper/trapper.go:214-217 | the accumulated length stays below 2^32 |
| Ber.ScopedPDUEncrypted | receiver/snmpreceiver/internal/trapper/trapper.go:189-200 | the loop computes whether the fourth inner element is an OCTET STRING |
| Ber.WalkerExact | receiver/snmpreceiver/internal/trapper/trapper.go:186-200 | that holds if and only if the message is one element whose content begins with four elements, the fourth an OCTET STRING |
| SnmpConfig.Validate | receiver/snmpreceiver/config.go:81-206 | accepts exactly the well-formed configurations, whatever the map order, and any error reported is real |
| SnmpConfig.AcceptedEntry | receiver/snmpreceiver/config.go:102-132 | which authentication entries are well-formed, by value: versions, protocols, and passphrases of at least 8 characters |
| SnmpConfig.AcceptedMetric | receiver/snmpreceiver/config.go:155-179 | a metric is well-formed exactly with an OID, a name and one of three types |
| SnmpConfig.ValidateListener | receiver/snmpreceiver/config.go:181-204 | accepts exactly if every accepted entry exists and v3 user names are pairwise distinct |
| SnmpConfig.StartupLookups | receiver/snmpreceiver/receiver.go:142-178 | in an accepted configuration every auth and group lookup hits and no port is cut to 16 bits |
| SnmpConfig.MaxRepetitionsKept | receiver/snmpreceiver/receiver.go:168 | the 32-bit conversion keeps the value if and only if it is below 2^32 |
| SnmpConfig.MaxRepetitionsLost | receiver/snmpreceiver/receiver.go:168 | an accepted configuration with a target, whose value the conversion changes |
| TrapAuth.NewTrapper | receiver/snmpreceiver/internal/trapper/trapper.go:63-94 | fails exactly if the security table refuses the parameters of a v3 entry; otherwise a packet of another version than 3 is accepted if and only if the list is empty or a v2c entry of it has the packet's community, and the table holds for each user exactly the parameters (name, protocols, passphrases) of its v3 entries |
| TrapAuth.IsAuthorized | receiver/snmpreceiver/internal/trapper/trapper.go:283-316 | the decision over version, model, flags, user and community |
| TrapAuth.Accept | receiver/snmpreceiver/internal/trapper/trapper.go:144-157 | a decoded packet is accepted exactly if it is authorized with its privacy claim backed by the walker on the raw message |
| TrapAuth.LevelsAgree | receiver/snmpreceiver/internal/connection/connection.go:151-202 | the level `USM` builds is the one `isAuthorized` demands if and only if privacy comes with authentication |
| TrapAuth.ProtocolsDistinct | receiver/snmpreceiver/internal/connection/connection.go:171-202 | no known protocol is taken for another |
| TrapAuth.ValidatedLevels | receiver/snmpreceiver/config.go:110-130 | for a validated v3 entry they agree, and are the level the entry names |
| TrapAuth.PrivacyAloneDisagrees | receiver/snmpreceiver/internal/connection/connection.go:151-169 | an entry that validation refuses and for which they disagree |
| TrapAuth.OneEntryPerUser | receiver/snmpreceiver/internal/trapper/trapper.go:75-85 | with a validated list each user has exactly the parameters of its own entry |
| TrapAuth.V3TrapAcceptedIff | receiver/snmpreceiver/internal/trapper/trapper.go:283-307 | exactly which v3 packets of a listed user are accepted |
| TrapAuth.ExactLevelAccepted | receiver/snmpreceiver/internal/trapper/trapper.go:297-306 | a packet at exactly the level of the entry is accepted when its privacy claim is backed |
| TrapAuth.StrengtheningIsSafe | receiver/snmpreceiver/internal/trapper/trapper.go:297-306 | a stronger entry never admits a packet a weaker one rejects |
| TrapAuth.PrivacyMeansEncrypted | receiver/snmpreceiver/internal/trapper/trapper.go:142-159 | a trap accepted for a user with privacy has an OCTET STRING as its scoped PDU in the raw message |
| TableCollector.IndexIsSuffix | receiver/snmpreceiver/internal/poller/collector.go:84-91 | an index is exactly the non-empty suffix after the prefix and a dot |
| TableCollector.CollectIndexes | receiver/snmpreceiver/internal/poller/collector.go:146-153 | the indexes are those of the first walk, each once, in any order |
| TableCollector.FirstColumnIsFull | receiver/snmpreceiver/internal/poller/collector.go:145-153 | the first metric has a value in every row |
| TableCollector.LastWinsMeans | receiver/snmpreceiver/internal/poller/collector.go:186-207 | an attribute is set by the last of index, attributes and lookups that names it |
| TableCollector.LookupAsDocumentedIff | receiver/snmpreceiver/internal/poller/collector.go:202-208 | a lookup gives what its `source_indexes` are documented to give, for every agent, if and only if the fields they name give the row index |
| TableCollector.OwnIndexIsTheKey | receiver/snmpreceiver/internal/poller/collector.go:186-208 | naming the group's own index field does, unless a column has taken that name |
| TableCollector.CollectTable | receiver/snmpreceiver/internal/poller/collector.go:130-228 | fails exactly if a walk fails; otherwise each metric has one point for each row it shares with the first, with its value and time, and as attributes under each name the last lookup that has a value, else the last attribute, else the index, and no other names |
| TableCollector.AttributesDetermined | receiver/snmpreceiver/internal/poller/collector.go:186-209 | that describes the attributes of a row completely |
| TableCollector.DotMakesNoDifference | receiver/snmpreceiver/internal/poller/collector.go:79-91 | a leading dot of a configured OID makes no difference |
| TableCollector.JoinIsRelational | receiver/snmpreceiver/internal/poller/collector.go:176-218 | each metric has exactly one point per row shared with the first metric's walk, with that row's value and names |
| MetricsBuilder.BuildMetrics | receiver/snmpreceiver/internal/metrics/builder.go:35-119 | the scope name, the host and port under their own keys whatever the other attributes are, the other attributes as they are, and the converted metrics in order |
| MetricsBuilder.KnownKinds | receiver/snmpreceiver/internal/metrics/builder.go:55-116 | exactly the three types that validation accepts are built, counters as monotonic sums, up-down counters as other sums, both cumulative |
| MetricsBuilder.ConvertedAt | receiver/snmpreceiver/internal/metrics/builder.go:53-119 | a metric of known type comes out at the number of such metrics before it, with its name, unit, description, type (sums cumulative) and numeric points |
| MetricsBuilder.ConvertedCount | receiver/snmpreceiver/internal/metrics/builder.go:53-119 | no other metric comes out |
| MetricsBuilder.NoWraparound | receiver/snmpreceiver/internal/metrics/builder.go:134-159 | an integer arrives as itself if it fits int64 and as a float of itself otherwise |
| MetricsBuilder.FloatsArrive | receiver/snmpreceiver/internal/metrics/builder.go:121-159 | floats arrive as they are, and of all values only the non-numbers do not arrive |
| MetricsBuilder.NumericPosition | receiver/snmpreceiver/internal/metrics/builder.go:121-159 | each numeric point comes out at the position that counts the numeric points before it |
| MetricsBuilder.NumericCount | receiver/snmpreceiver/internal/metrics/builder.go:121-131 | no other point comes out |
| MetricsBuilder.NumericIff | receiver/snmpreceiver/internal/metrics/builder.go:121-159 | a point is in the output if and only if it is the conversion of a numeric point of the input |
| MetricsBuilder.TableToMetrics | receiver/snmpreceiver/internal/poller/collector.go:130-228 | the points of the built metric of a table column of known type are exactly the numeric values of the rows shared with the first column, with the attributes of those rows |
| PollProtocol.Reachable | receiver/snmpreceiver/receiver.go:62-202 | the invariant of start, polling and shutdown holds in every interleaving |
| PollProtocol.NoUseAfterClose | receiver/snmpreceiver/receiver.go:128-140 | no poll or read uses a closed connection |
| PollProtocol.StartLaunchesAll | receiver/snmpreceiver/receiver.go:62-107 | a completed start has launched the poller if there are targets, and the listener exactly if traps are wanted |
| PollProtocol.PollPerTick | receiver/snmpreceiver/internal/poller/poller.go:71-86 | a target polls immediately and then once for each tick of its own |
| PollProtocol.EndsWhenCancelled | receiver/snmpreceiver/internal/poller/poller.go:78-85 | a target ends only after the cancellation |
| PollProtocol.ClosedExactlyOnce | receiver/snmpreceiver/receiver.go:128-202 | each opened connection is closed at most once, and exactly once after a failed start or a shutdown |
| PollProtocol.RunReturnsAfterAll | receiver/snmpreceiver/internal/poller/poller.go:48-69 | `Run` returns with exactly one completion from every target, none left at its send |
| PollProtocol.CloseWaitsForAll | receiver/snmpreceiver/receiver.go:128-140 | shutdown closes connections only after the listener and all targets have ended |
| PollProtocol.ShutdownCanReturn | receiver/snmpreceiver/internal/poller/poller.go:48-86 | from every reachable state a called shutdown can be completed |
| NatsProtocol.HandleMessage | receiver/natsjetstreamreceiver/receiver.go:289-383 | exactly one answer: Ack if it parses and is consumed, Nak if the consumer may yet take it, Term otherwise; the consumer is asked exactly if it parses |
| NatsProtocol.Reachable | receiver/natsjetstreamreceiver/receiver.go:96-198 | the invariant of start, loops and shutdown holds in every interleaving |
| NatsProtocol.LoopsNeedAllConsumers | receiver/natsjetstreamreceiver/receiver.go:148-188 | a live loop means all registered signals' consumers exist |
| NatsProtocol.StartLaunchesLoops | receiver/natsjetstreamreceiver/receiver.go:175-188 | a completed start has launched a loop for every registered signal, a start under way for those it has come to, and none for any other |
| NatsProtocol.LaunchedAtTop | receiver/natsjetstreamreceiver/receiver.go:175-188 | a launched loop begins at its top and the wait group counts it |
| NatsProtocol.LoopsEndWhenTold | receiver/natsjetstreamreceiver/receiver.go:251-287 | a loop ends only after shutdown was called or its iterator closed: no failed fetch and no answer ends it |
| NatsProtocol.FailedStartLeavesNothing | receiver/natsjetstreamreceiver/receiver.go:96-172 | a failed start leaves no loop and no open connection |
| NatsProtocol.WaitGroupIsExact | receiver/natsjetstreamreceiver/receiver.go:175-252 | the wait group is zero if and only if no loop is live |
| NatsProtocol.ClosedOnlyWhenQuiet | receiver/natsjetstreamreceiver/receiver.go:386-415 | the connection is never closed under a live loop, and once shutdown is complete no loop can take a step |
| NatsProtocol.AnsweredBeforeNextFetch | receiver/natsjetstreamreceiver/receiver.go:251-383 | before a loop fetches again each of its deliveries was answered exactly once |
| NatsProtocol.AnswersAreEarned | receiver/natsjetstreamreceiver/receiver.go:289-383 | an Ack implies that the delivery was recorded as parsed and as consumed without error, a Term that it did not parse or was refused for good, a Nak that it was refused retryably |
| NatsProtocol.RetryableNeverSettled | receiver/natsjetstreamreceiver/receiver.go:363-383 | a message refused only retryably is never settled |
| Registry.RunOnce | receiver/natsjetstreamreceiver/factory.go:130-145 | the underlying start and shutdown each run at most once per instance |
| Registry.FirstCallRuns | receiver/natsjetstreamreceiver/factory.go:130-145 | the first start by any wrapper does start the instance and the first shutdown does stop it, and no other call does |
| Registry.OneLiveInstance | receiver/natsjetstreamreceiver/factory.go:45-68 | an ID has at most one unremoved instance and creates return it |
| Registry.NeverEvictsAnother | receiver/natsjetstreamreceiver/factory.go:138-145 | only the owner's removal takes an entry out of the store |
| Registry.StaleShutdownIsNoOp | receiver/snmpreceiver/factory.go:121-128 | a late shutdown of a removed instance changes nothing |
| Registry.ReceiverStore.GetOrCreate | receiver/snmpreceiver/factory.go:44-68 | the in-place method takes the step of the model |
| Registry.ReceiverStore.BeginStart | receiver/natsjetstreamreceiver/factory.go:130-136 | takes the start step of the model; the underlying start is called exactly the first time |
| Registry.ReceiverStore.BeginShutdown | receiver/natsjetstreamreceiver/factory.go:138-145 | takes the shutdown step; the underlying shutdown is called exactly the first time |
| Registry.ReceiverStore.RemoveEntry | receiver/natsjetstreamreceiver/factory.go:71-76 | takes the removal step: whatever is under the ID goes |

## Left out

- Parquet and Arrow encoding, compression and AES-GCM encryption; a file is a list of chunks.
- gosnmp decoding, authentication and decryption, sockets, NATS connections and protobuf: their results are inputs or
  steps.
- exporter/natsjetstreamexporter: a publish wrapper with an error table.
- exporter/parquetexporter/logs.go and `pushLogs`: a flat instance of the traces transform.
- Telemetry except the rows-written counter, logging, trace context, obsreport.
- receiver/snmpreceiver/internal/logs, scalar collection, default configurations, NATS and Parquet configuration
  checks.
- The JSON text of an attribute map and the string form of a non-string `service.name`: cells hold the value they
  denote.
- That `communities` are compared in constant time.
- Builders.BuilderSet.I64ListFromUint: asks that the cell be the next in schema order, for the same reason as
  `F64OrNull`.
- Builders.BuilderSet.F64OrNull: like every append of the class it asks that the cells of a row come in schema order,
  which the code always follows and exporter/parquetexporter/traces.go:42-44 states; the Arrow builders would take any
  order.
- Push.PushMetrics: asks for a writer of every kind, which is what a successful start gives; the code would fail on a
  missing one.
- The `walk` field of a table, described at receiver/snmpreceiver/README.md:90 as the subtree to walk: the code only
  uses it to tell tables from scalar groups (receiver/snmpreceiver/internal/poller/collector.go:46-48).
- The aliasing of Arrow builder objects: a table is one object whose buffers are values reassigned in place.
- Pushes before a complete start, after shutdown, and atomicity across the tables of one push: the code promises none.
- Name collisions across restarts when a clock repeats a reading, directory fsync, and fairness: `ShutdownCanReturn`
  says a way to finish always exists, not that the scheduler takes it.
