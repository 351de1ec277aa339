# git log as an Arrow IPC stream — a Dafny model

This project models the library core of `rs-git-log2arrow-ipc-stream`. That core is
`get_arrow_schema` and `log2arrow_ipc_stream_writer` in `src/lib.rs`. The writer works in this order:

1. It opens an Arrow IPC stream on an output and writes the fixed nine-column schema.
2. It resolves the repository's head commit and parses the optional `since` and `until` dates.
3. It walks the head's ancestors and visits at most `max_count` of them.
4. It skips commits whose author fails the name filter or the time bounds.
5. For each remaining commit it appends one value to each of nine column builders, in lock-step. The parent ids go into a list builder.
6. It freezes the builders into one record batch and writes that batch, then the end-of-stream marker.

The modules follow that structure:

| module (file) | what it holds |
|---|---|
| `Wrappers` (`wrappers.dfy`) | `Option` and `Result` |
| `Errors` (`errors.dfy`) | the cause of each failure the writer wraps in `io::Error` |
| `Commits` (`commits.dfy`) | the ancestor walk as the writer sees it: each item decoded as far as it could be, plus the output row |
| `Text` (`text.dfy`) | Unicode White_Space and `trim_end` |
| `CommitFilter` (`filter.dfy`) | the parsed date bounds and the author/time filter |
| `ArrowSchema` (`schema.dfy`) | `get_arrow_schema` |
| `ArrowArrays` (`arrays.dfy`) | finished arrays, list offsets, and `RecordBatch::try_new` with its checks |
| `IpcStream` (`ipc.dfy`) | the output sink and the stream writer, as a sequence of frames: schema, batches, end-of-stream |
| `ColumnAccumulation` (`accumulator.dfy`) | the nine builders as one class, `ColumnAccumulator`, and the columns a sequence of rows becomes |
| `GitLog` (`log.dfy`) | the loop as a method (`BuildColumns`) and the whole writer (`Log2ArrowIpcStreamWriter`), specified by the functions `Scan`, `Collect`, `Run` and `Emitted` |
| `LogProperties` (`log_properties.dfy`) | lemmas about those functions: a filter-then-map reference definition (`Kept`), the cap, the filter, the batch and the frames |

How the model is specified:

- The loop method is proved against `Scan`, a function that takes one `Step` per visited item and stops at the first error.
- `Collect` is `Scan` over the walk capped at `max_count` items.
- `Run` adds the head and walk failures and the record batch.
- `Emitted` lists the frames the sink receives.
- The top-level method is proved to write exactly `Emitted` and to return `Run`'s outcome.

## Model

| member | source | states |
|---|---|---|
| `ArrowSchema.GetArrowSchema` | src/lib.rs:12-36 | nine fields, named commit_hash … parent_hashes in that order, none nullable; only parent_hashes admits nulls, through its nullable `item`; the types are Utf8, Timestamp(Second, no zone) for the two time columns, and List(Utf8 item) |
| `ArrowSchema.ColumnNamesDistinct` | src/lib.rs:13-35 | no two columns share a name |
| `Text.TrimEnd` | src/lib.rs:101 | the result is a prefix of the input; everything removed is whitespace; what remains does not end in whitespace |
| `Text.TrimEndUnique` | src/lib.rs:101 | those three properties determine the trimmed message uniquely |
| `Text.TrimEndIdempotent` | src/lib.rs:101 | trimming twice removes nothing more |
| `Text.TrimEndKeepsCleanEnd` | src/lib.rs:101 | a message that does not end in whitespace is stored unchanged |
| `Text.TrimEndDropsWhitespaceSuffix` | src/lib.rs:101 | any trailing run of whitespace (newlines, tabs, spaces, other Unicode spaces) is removed in full |
| `CommitFilter.ParseBound` | src/lib.rs:55-60 | a bound is set exactly when it is given and parses; it is then the parsed seconds; a date that does not parse is not an error |
| `CommitFilter.Accepts` | src/lib.rs:79-95 | the three sequential checks accept exactly when the author name equals the filter (if set), since ≤ author time (if set) and author time ≤ until (if set); both bounds are inclusive |
| `CommitFilter.UnparsableBoundsIgnored` | src/lib.rs:55-95 | unparsable since/until bounds filter nothing |
| `ArrowArrays.OffsetsOf` | src/lib.rs:115-119 | one offset per list boundary, starting at 0; the last offset is the number of items |
| `ArrowArrays.OffsetsCount` | src/lib.rs:115-119 | offset i is the number of items in the first i lists |
| `ArrowArrays.ListsExtend` | src/lib.rs:115-119 | closing one more list appends its items and one offset, the new item count |
| `ArrowArrays.ListOfRoundTrip` | src/lib.rs:115-119 | the offsets of a list array are well formed (start at 0, non-decreasing, end at the item count), and row i read back is exactly list i |
| `ArrowArrays.AllValidHasNoNulls` | src/lib.rs:119 | rows closed with `append(true)` carry no nulls |
| `ArrowArrays.TryNew` | src/lib.rs:122-136 | the batch is built exactly when the columns conform to the schema (count, nullability, equal lengths, types); it keeps the schema and columns, and its row count is every column's length |
| `IpcStream.StreamWriter.TryNew` | src/lib.rs:51 | opening the stream writes the schema frame at once |
| `IpcStream.StreamWriter.Write` | src/lib.rs:138 | an open writer appends one batch frame; a finished one refuses it |
| `IpcStream.StreamWriter.Finish` | src/lib.rs:139 | writes the end-of-stream frame once; afterwards the writer is finished |
| `ColumnAccumulation.BuffersExtend` | src/lib.rs:97-119 | appending one row to the buffers of `rows` gives the buffers of `rows + [row]`, in every one of the nine columns |
| `ColumnAccumulation.ColumnAccumulator.constructor` | src/lib.rs:62-70 | nine empty builders: the buffers of zero rows |
| `ColumnAccumulation.ColumnAccumulator.AppendCommit` | src/lib.rs:97-119 | appends one entry to every column, in the source's order; fails with the message error or the committer error exactly when that part of the commit is unreadable |
| `ColumnAccumulation.ColumnAccumulator.AppendAuthor` | src/lib.rs:106-108 | appends the author's name, email and time, and changes no other column |
| `ColumnAccumulation.ColumnAccumulator.AppendCommitter` | src/lib.rs:111-113 | appends the committer's name, email and time, and changes no other column |
| `ColumnAccumulation.ColumnAccumulator.AppendParents` | src/lib.rs:115-119 | the parent ids go to the flat item buffer, in order; the row is closed with the new item count as its end offset, marked valid |
| `ColumnAccumulation.ColumnAccumulator.Finish` | src/lib.rs:125-133 | the nine finished arrays of the buffers, in schema order |
| `GitLog.OptionsOf` | src/lib.rs:41-60 | the parameters, with each date bound set exactly when it parses, and then to the parsed seconds |
| `ColumnAccumulation.StoredMessage` | src/lib.rs:100-104 | the message as stored: a prefix of the raw message that drops only trailing whitespace; with trimming off, the raw message itself |
| `ColumnAccumulation.RecordOf` | src/lib.rs:97-119 | the row of an accepted, readable commit: its id, author, committer and parent ids, and its stored message, a prefix of the raw one |
| `GitLog.Step` | src/lib.rs:74-119 | one turn of the loop, reading the object, then the author, then the filter, then the message, then the committer: it succeeds exactly when the object and author are readable and, if the filter accepts the commit, so are its message and committer; on success the rows are unchanged or gain exactly this commit's record |
| `GitLog.Scan` | src/lib.rs:73-120 | the loop over the visited items, one Step each, stopping at the first error; on success at most one row per visited item |
| `GitLog.Collect` | src/lib.rs:73 | the loop over the walk capped by `take(max_count)`; on success at most max_count rows and at most one per ancestor |
| `GitLog.Visited` | src/lib.rs:73 | the capped walk: a prefix of the walk, as long as max_count or as the walk, whichever is shorter |
| `GitLog.ScanErrPersists` | src/lib.rs:74-110 | once an item has failed, later items change nothing: the run keeps the first error |
| `GitLog.CollectFailsAt` | src/lib.rs:73-110 | an error at visited item i is the error of the whole run |
| `GitLog.BuildColumns` | src/lib.rs:62-133 | the loop returns the nine arrays of exactly the rows `Collect` gives, or `Collect`'s error |
| `GitLog.Run` | src/lib.rs:50-136 | the outcome of a run: no head gives the head error, an unstartable walk the walk error; success needs the collected rows, and the batch then carries the writer's schema |
| `GitLog.Emitted` | src/lib.rs:50-141 | the frames a run writes: the schema frame first, always; just that frame exactly when the run fails, and at most three frames |
| `GitLog.Log2ArrowIpcStreamWriter` | src/lib.rs:38-142 | succeeds exactly when `Run` does, with `Run`'s error otherwise; the sink receives exactly `Emitted` |
| `LogProperties.Fault` | src/lib.rs:74-110 | an item ends a run exactly when its object or author is unreadable, or it is kept and its message or committer is unreadable |
| `LogProperties.ScanIsKept` | src/lib.rs:73-120 | with no faulty item, the loop yields exactly `Kept`: the records of the kept commits, in walk order |
| `LogProperties.ScanOkHasNoFault` | src/lib.rs:73-120 | a loop that succeeds met no faulty item |
| `LogProperties.ScanSkipsRejected` | src/lib.rs:79-95 | a commit the filter rejects adds no row to any column |
| `LogProperties.ScanFailsAtFirstFault` | src/lib.rs:74-110 | the first faulty item ends the loop with its own error |
| `LogProperties.CollectIsFilterOfTake` | src/lib.rs:73-120 | the rows are `Kept` of the first max_count visited items (the filter after the cap); the run fails exactly when one of those items is faulty |
| `LogProperties.StoredMessageTrimsOnlyWhenAsked` | src/lib.rs:100-104 | with trimming, the stored message is a prefix of the raw one, differs from it only by trailing whitespace, and is already trimmed; without trimming, it is the raw message |
| `LogProperties.CollectBounds` | src/lib.rs:73 | at most max_count rows and at most one per ancestor; max_count 0 yields no rows |
| `LogProperties.CollectIgnoresBeyondCap` | src/lib.rs:73 | ancestors past the cap, even faulty ones, change nothing |
| `LogProperties.CollectRowsMatchFilter` | src/lib.rs:79-104 | every row's author name equals the filter if one is set; its author time lies within the inclusive bounds that are set; with trimming, its message does not end in whitespace |
| `LogProperties.NoFilterKeepsEveryVisited` | src/lib.rs:73-120 | with no filter and readable commits within the cap, row i is commit i, for min(max_count, walk length) rows |
| `LogProperties.CapCountsVisitedCommits` | src/lib.rs:73-95 | a rejected commit uses up a slot of the cap, so an accepted commit after it is not reached (concrete instance) |
| `LogProperties.ColumnsConform` | src/lib.rs:122-136 | the columns of any rows conform to the schema, so the batch is always built, with one row per record |
| `LogProperties.BatchHoldsRows` | src/lib.rs:97-133 | row i of the batch holds record i's fields; its parent list is valid (an empty list for a root commit, never null) and is exactly the parent ids, in order; the offsets are non-decreasing and end at the item count |
| `LogProperties.RunOutcome` | src/lib.rs:50-136 | a run succeeds exactly when the head resolves, the walk starts and no visited item is faulty; its batch is the columns of the collected rows, with at most max_count rows |
| `LogProperties.EmittedFrames` | src/lib.rs:50-141 | the schema frame always comes first; a successful run adds exactly one batch and the end marker; a failed run adds nothing |
| `LogProperties.EmptyWalkEmitsEmptyBatch` | src/lib.rs:73-139 | an empty walk or max_count 0 still emits schema, an empty batch and the end marker |
| `LogProperties.LinearHistoryScenario` | src/lib.rs:73-136 | for C1 ← C2 ← C3 with no filter, the rows are C3, C2, C1 in that order, and the root's parent list is empty |

## Behaviour worth noting

- **The cap counts visited commits, not accepted ones.** `take(max_count)` (src/lib.rs:73) wraps the walk itself, and each `continue` of the filter (src/lib.rs:82, 88, 94) still uses up one item of it. The rows are therefore the filter applied to the first max_count commits, not the first max_count commits the filter accepts. `CapCountsVisitedCommits` shows a walk holding an accepted commit that yields no row.
- **Trimming removes all trailing Unicode whitespace.** The `--trim-message` help text says "Trim trailing newline from commit messages" (src/bin/git-log2arrow-ipc-stream.rs:9), but `trim_end` (src/lib.rs:101) also removes trailing spaces, tabs and every other White_Space character.

## Left out

- The repository library (gix) is not part of this model. Decoding is given as values: an ancestor is unreadable, or a commit whose author, message and committer are each decoded or not. Object ids are already hexadecimal strings.
- Byte strings are given already decoded to text. Lossy UTF-8 replacement is not modelled. The author filter is therefore compared with the decoded name, whereas the code compares the raw name bytes (src/lib.rs:80) and stores their lossy decoding: a name that is not valid UTF-8, such as the single byte FF, is kept by the model under the filter "\u{FFFD}" and skipped by the code. Trimming is done on characters, after decoding. The code trims bytes first and decodes afterwards; both remove the same trailing whitespace.
- RFC 3339 parsing (chrono) is a parameter, `parseRfc3339`. The model keeps only what the writer does with its result.
- The walk is a finite sequence. An endless walk, and when each item is read, are not modelled. Nothing past the cap is read (`CollectIgnoresBeyondCap`).
- The Arrow IPC byte encoding is not modelled; the sink records frames. The sink cannot fail, so I/O errors from the writer, its write and its finish are not modelled. `Log2ArrowIpcStreamWriter` asserts that the write and the finish succeed on an open writer.
- The string builders' byte offsets and value buffers are abstracted to sequences of strings.
- The nine builders are modelled as one class with one buffer field per column. The two list-builder fields, offsets and validity, stand for the list builder's state. The item buffer stands for its `values()` child.
- `ColumnAccumulation.ColumnAccumulator.AppendCommit`: it says nothing about the buffers after a failed append. The writer returns the error and drops the builders, so those buffers are never seen.
- The columns' meaning (the buffers of the rows accepted so far) is the invariant of the `BuildColumns` loop. It is not a class invariant of the accumulator, which stores no rows.
- The `io::Error` wrapping is not modelled; each failure keeps its cause as an `Errors.Error`.
- The command-line program (`src/bin/git-log2arrow-ipc-stream.rs`: argument parsing, repository discovery, stdout) is not part of this model. Its default max_count of 1024 is only a parameter value here.
- `usize` for max_count is modelled as an unbounded natural number. A cap above the walk's length behaves the same either way.
