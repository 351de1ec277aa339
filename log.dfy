/**
  The writer: write the schema header, resolve the head commit, walk its
  ancestors, visit at most max_count of them, drop those the filter rejects,
  append one row per accepted commit to the column accumulator, and emit the
  batch on the Arrow IPC stream followed by the end-of-stream marker.

  The loop is specified by Scan, a function over the visited items, and the
  whole run by Run and Emitted; what the writer promises is proved as lemmas
  about them in module LogProperties.
 */
module GitLog {
  import opened Wrappers
  import opened Errors
  import opened Commits
  import opened CommitFilter
  import opened ArrowSchema
  import opened ArrowArrays
  import opened IpcStream
  import opened ColumnAccumulation

  /** The writer's parameters once the date bounds are parsed. */
  datatype Options = Options(trimMessage: bool, maxCount: nat, filter: Filter)

  /** The parameters as the writer takes them, with both date bounds parsed. */
  function OptionsOf(trimMessage: bool, maxCount: nat, authorFilter: Option<string>,
                     since: Option<string>, until: Option<string>,
                     parseRfc3339: string -> Option<int>): (opts: Options)
    ensures opts.trimMessage == trimMessage && opts.maxCount == maxCount
    ensures opts.filter.author == authorFilter
    ensures opts.filter.since.Some? <==> since.Some? && parseRfc3339(since.value).Some?
    ensures opts.filter.until.Some? <==> until.Some? && parseRfc3339(until.value).Some?
    ensures opts.filter.since.Some? ==> opts.filter.since.value == parseRfc3339(since.value).value
    ensures opts.filter.until.Some? ==> opts.filter.until.value == parseRfc3339(until.value).value
  {
    Options(trimMessage, maxCount,
            Filter(authorFilter, ParseBound(since, parseRfc3339), ParseBound(until, parseRfc3339)))
  }

  // ---------------------------------------------------------------------
  // What the loop computes

  /** The walk capped at maxCount items: these are the commits the loop visits. */
  function Visited(ancestors: seq<Ancestor>, maxCount: nat): (visited: seq<Ancestor>)
    ensures |visited| <= maxCount && |visited| <= |ancestors|
    ensures |visited| == maxCount || |visited| == |ancestors|
    ensures visited == ancestors[..|visited|]
  {
    if maxCount < |ancestors| then ancestors[..maxCount] else ancestors
  }

  /**
    One turn of the loop: the object and its author are read first and any
    failure there ends the run; a rejected commit leaves the rows alone; for
    an accepted commit the message and the committer are read (either may
    fail) and one row is added.
   */
  function Step(rows: seq<CommitRecord>, a: Ancestor, opts: Options): (r: Result<seq<CommitRecord>, Error>)
    ensures r.Ok? <==> a.Commit? && a.author.Some? && (Accepts(a.author.value, opts.filter) ==> Readable(a))
    ensures r.Ok? ==> r.value == rows || (Readable(a) && r.value == rows + [RecordOf(a, opts.trimMessage)])
  {
    match a
    case Unreadable => Err(ObjectUnreadable)
    case Commit(_, author, rawMessage, committer, _) =>
      if author.None? then Err(AuthorUnreadable)
      else if !Accepts(author.value, opts.filter) then Ok(rows)
      else if rawMessage.None? then Err(MessageUnreadable)
      else if committer.None? then Err(CommitterUnreadable)
      else Ok(rows + [RecordOf(a, opts.trimMessage)])
  }

  /** The loop over the visited items, one Step each, stopping at the first error. */
  function Scan(visited: seq<Ancestor>, opts: Options): (r: Result<seq<CommitRecord>, Error>)
    ensures r.Ok? ==> |r.value| <= |visited|
  {
    if visited == [] then Ok([])
    else
      match Scan(visited[..|visited| - 1], opts)
      case Err(e) => Err(e)
      case Ok(rows) => Step(rows, visited[|visited| - 1], opts)
  }

  /** The rows of a run: the capped walk, then filtered. */
  function Collect(ancestors: seq<Ancestor>, opts: Options): (r: Result<seq<CommitRecord>, Error>)
    ensures r.Ok? ==> |r.value| <= opts.maxCount && |r.value| <= |ancestors|
  {
    Scan(Visited(ancestors, opts.maxCount), opts)
  }

  /** Scan takes one more Step for each further visited item. */
  lemma ScanExtends(visited: seq<Ancestor>, i: nat, opts: Options, rows: seq<CommitRecord>)
    requires i < |visited|
    requires Scan(visited[..i], opts) == Ok(rows)
    ensures Scan(visited[..i + 1], opts) == Step(rows, visited[i], opts)
  {
    assert visited[..i + 1][..i] == visited[..i];
  }

  /** Once Scan has failed, further items change nothing: the run keeps the first error. */
  lemma {:induction false} ScanErrPersists(visited: seq<Ancestor>, k: nat, opts: Options)
    requires k <= |visited|
    requires Scan(visited[..k], opts).Err?
    ensures Scan(visited, opts) == Scan(visited[..k], opts)
    decreases |visited| - k
  {
    if k < |visited| {
      assert visited[..k + 1][..k] == visited[..k];
      ScanErrPersists(visited, k + 1, opts);
    } else {
      assert visited[..k] == visited;
    }
  }

  /** An error at visited item i is the error of the whole run. */
  lemma CollectFailsAt(ancestors: seq<Ancestor>, opts: Options, i: nat)
    requires i < |ancestors| && i < opts.maxCount
    requires Scan(ancestors[..i + 1], opts).Err?
    ensures Collect(ancestors, opts) == Scan(ancestors[..i + 1], opts)
  {
    var visited := Visited(ancestors, opts.maxCount);
    assert visited[..i + 1] == ancestors[..i + 1];
    ScanErrPersists(visited, i + 1, opts);
  }

  // ---------------------------------------------------------------------
  // The loop

  /**
    The loop over the capped walk, appending to one column accumulator. On
    success the result is the nine finished arrays of the rows Collect gives;
    on failure it is the error of the first item that could not be read.
   */
  method BuildColumns(ancestors: seq<Ancestor>, opts: Options) returns (r: Result<seq<Column>, Error>)
    ensures r == match Collect(ancestors, opts)
                 case Ok(rows) => Ok(ColumnsOf(rows))
                 case Err(e) => Err(e)
  {
    var acc := new ColumnAccumulator();
    ghost var rows: seq<CommitRecord> := [];
    var i := 0;
    while i < |ancestors| && i < opts.maxCount
      invariant i <= |ancestors| && i <= opts.maxCount
      invariant Scan(ancestors[..i], opts) == Ok(rows)
      invariant acc.Current() == BuffersOf(rows)
    {
      var a := ancestors[i];
      ScanExtends(ancestors, i, opts, rows);
      if a.Unreadable? {
        CollectFailsAt(ancestors, opts, i);
        return Err(ObjectUnreadable);
      }
      if a.author.None? {
        CollectFailsAt(ancestors, opts, i);
        return Err(AuthorUnreadable);
      }
      var author := a.author.value;
      if opts.filter.author.Some? && author.name != opts.filter.author.value {
        i := i + 1;
        continue;
      }
      if opts.filter.since.Some? && author.seconds < opts.filter.since.value {
        i := i + 1;
        continue;
      }
      if opts.filter.until.Some? && author.seconds > opts.filter.until.value {
        i := i + 1;
        continue;
      }
      var appended := acc.AppendCommit(a, opts.trimMessage);
      if appended.Err? {
        CollectFailsAt(ancestors, opts, i);
        return Err(appended.error);
      }
      BuffersExtend(rows, RecordOf(a, opts.trimMessage));
      rows := rows + [RecordOf(a, opts.trimMessage)];
      i := i + 1;
    }
    assert ancestors[..i] == Visited(ancestors, opts.maxCount);
    var columns := acc.Finish();
    r := Ok(columns);
  }

  // ---------------------------------------------------------------------
  // The whole run

  /**
    The batch of a run, or its error: the head must resolve and the walk must
    start, then the rows are collected and the record batch is built from
    their columns under the writer's schema.
   */
  function Run(history: History, opts: Options): (r: Result<RecordBatch, Error>)
    ensures history.NoHead? ==> r == Err(HeadUnresolved)
    ensures history.Unwalkable? ==> r == Err(WalkFailed)
    ensures r.Ok? ==> history.Ancestry? && Collect(history.ancestors, opts).Ok?
    ensures r.Ok? ==> r.value.schema == GetArrowSchema()
  {
    match history
    case NoHead => Err(HeadUnresolved)
    case Unwalkable => Err(WalkFailed)
    case Ancestry(ancestors) =>
      match Collect(ancestors, opts)
      case Err(e) => Err(e)
      case Ok(rows) => TryNew(GetArrowSchema(), ColumnsOf(rows))
  }

  /**
    The frames a run writes: the schema header always, since the stream is
    opened before anything is read; then the batch and the end-of-stream
    marker when the run succeeds, and nothing more when it fails.
   */
  function Emitted(history: History, opts: Options): (frames: seq<Frame>)
    ensures 1 <= |frames| <= 3 && frames[0] == SchemaMessage(GetArrowSchema())
    ensures |frames| == 1 <==> Run(history, opts).Err?
  {
    [SchemaMessage(GetArrowSchema())] +
    match Run(history, opts)
    case Ok(batch) => [RecordBatchMessage(batch), EndOfStream]
    case Err(_) => []
  }

  /**
    log2arrow_ipc_stream_writer. The repository's history is given as a
    value, the RFC 3339 parser as a function, and the output as a sink of
    frames.
   */
  method Log2ArrowIpcStreamWriter(history: History, sink: Sink, trimMessage: bool, maxCount: nat,
                                  authorFilter: Option<string>, since: Option<string>, until: Option<string>,
                                  parseRfc3339: string -> Option<int>)
    returns (r: Result<(), Error>)
    modifies sink
    ensures var opts := OptionsOf(trimMessage, maxCount, authorFilter, since, until, parseRfc3339);
            && (r.Ok? <==> Run(history, opts).Ok?)
            && (r.Err? ==> r.error == Run(history, opts).error)
            && sink.frames == old(sink.frames) + Emitted(history, opts)
  {
    var schema := GetArrowSchema();
    var writer := new StreamWriter.TryNew(sink, schema);

    if history.NoHead? {
      return Err(HeadUnresolved);
    }

    var sinceSeconds := ParseBound(since, parseRfc3339);
    var untilSeconds := ParseBound(until, parseRfc3339);
    var opts := Options(trimMessage, maxCount, Filter(authorFilter, sinceSeconds, untilSeconds));

    if history.Unwalkable? {
      return Err(WalkFailed);
    }
    var columns := BuildColumns(history.ancestors, opts);
    if columns.Err? {
      return Err(columns.error);
    }

    var batch := TryNew(schema, columns.value);
    if batch.Err? {
      return Err(batch.error);
    }

    var written := writer.Write(batch.value);
    assert written.Ok?;
    var finished := writer.Finish();
    assert finished.Ok?;
    r := Ok(());
  }
}
