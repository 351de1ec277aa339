/**
  What the writer promises, proved about the functions that specify it:
  which rows a walk yields and which error ends it, how the cap and the
  filter shape the rows, that the columns always make a valid batch holding
  every row, and which frames reach the output.
 */
module LogProperties {
  import opened Wrappers
  import opened Errors
  import opened Commits
  import opened Text
  import opened CommitFilter
  import opened ArrowSchema
  import opened ArrowArrays
  import opened IpcStream
  import opened ColumnAccumulation
  import opened GitLog

  // ---------------------------------------------------------------------
  // A reference definition of the rows: filter, then map

  /** A visited commit whose author decodes and passes the filter. */
  predicate Keeps(a: Ancestor, f: Filter)
  {
    a.Commit? && a.author.Some? && Accepts(a.author.value, f)
  }

  /**
    The error a visited item ends a run with, if any: an unreadable object
    or author always, a missing message or committer only on a kept commit.
   */
  function Fault(a: Ancestor, f: Filter): (e: Option<Error>)
    ensures e.None? <==> a.Commit? && a.author.Some? && (Keeps(a, f) ==> Readable(a))
  {
    if a.Unreadable? then Some(ObjectUnreadable)
    else if a.author.None? then Some(AuthorUnreadable)
    else if !Keeps(a, f) then None
    else if a.rawMessage.None? then Some(MessageUnreadable)
    else if a.committer.None? then Some(CommitterUnreadable)
    else None
  }

  /** No item of `s` ends a run. */
  predicate NoFault(s: seq<Ancestor>, f: Filter)
  {
    forall i :: 0 <= i < |s| ==> Fault(s[i], f).None?
  }

  /** The record of every kept, readable commit of `s`, in walk order. */
  function Kept(s: seq<Ancestor>, opts: Options): seq<CommitRecord>
  {
    if s == [] then []
    else
      (if Keeps(s[0], opts.filter) && Readable(s[0]) then [RecordOf(s[0], opts.trimMessage)] else [])
      + Kept(s[1..], opts)
  }

  lemma {:induction false} KeptAppend(s: seq<Ancestor>, a: Ancestor, opts: Options)
    ensures Kept(s + [a], opts) ==
            Kept(s, opts) + (if Keeps(a, opts.filter) && Readable(a) then [RecordOf(a, opts.trimMessage)] else [])
  {
    if s == [] {
      assert [a][1..] == [];
    } else {
      assert (s + [a])[1..] == s[1..] + [a];
      KeptAppend(s[1..], a, opts);
    }
  }

  // ---------------------------------------------------------------------
  // The loop computes the reference, or fails at the first fault

  /** Without faults the loop yields exactly the kept commits' records. */
  lemma {:induction false} ScanIsKept(visited: seq<Ancestor>, opts: Options)
    requires NoFault(visited, opts.filter)
    ensures Scan(visited, opts) == Ok(Kept(visited, opts))
  {
    if visited != [] {
      var init := visited[..|visited| - 1];
      var last := visited[|visited| - 1];
      assert init + [last] == visited;
      assert Fault(last, opts.filter).None?;
      ScanIsKept(init, opts);
      KeptAppend(init, last, opts);
      assert Scan(visited, opts) == Step(Kept(init, opts), last, opts);
      if Keeps(last, opts.filter) {
        assert Step(Kept(init, opts), last, opts) == Ok(Kept(init, opts) + [RecordOf(last, opts.trimMessage)]);
      } else {
        assert Step(Kept(init, opts), last, opts) == Ok(Kept(init, opts));
        assert Kept(init, opts) + [] == Kept(init, opts);
      }
    }
  }

  /** A loop that succeeds met no fault. */
  lemma {:induction false} ScanOkHasNoFault(visited: seq<Ancestor>, opts: Options)
    requires Scan(visited, opts).Ok?
    ensures NoFault(visited, opts.filter)
  {
    if visited != [] {
      var init := visited[..|visited| - 1];
      ScanOkHasNoFault(init, opts);
      forall i | 0 <= i < |init|
        ensures Fault(visited[i], opts.filter).None?
      {
        assert visited[i] == init[i];
      }
    }
  }

  /** A commit the filter rejects adds no row, to any column, and is not read further. */
  lemma ScanSkipsRejected(visited: seq<Ancestor>, a: Ancestor, opts: Options)
    requires a.Commit? && a.author.Some? && !Accepts(a.author.value, opts.filter)
    ensures Scan(visited + [a], opts) == Scan(visited, opts)
  {
    assert (visited + [a])[..|visited|] == visited;
  }

  /** A fault ends the loop with its own error when no earlier item faulted. */
  lemma ScanFailsAtFirstFault(visited: seq<Ancestor>, opts: Options, i: nat)
    requires i < |visited| && Fault(visited[i], opts.filter).Some?
    requires NoFault(visited[..i], opts.filter)
    ensures Scan(visited, opts) == Err(Fault(visited[i], opts.filter).value)
  {
    ScanIsKept(visited[..i], opts);
    ScanExtends(visited, i, opts, Kept(visited[..i], opts));
    ScanErrPersists(visited, i + 1, opts);
  }

  /**
    The rows of a walk are the filter applied after the cap: the kept
    commits among the first maxCount visited, in walk order; the run fails
    exactly when one of those visited items faults.
   */
  lemma CollectIsFilterOfTake(ancestors: seq<Ancestor>, opts: Options)
    ensures Collect(ancestors, opts).Ok? <==> NoFault(Visited(ancestors, opts.maxCount), opts.filter)
    ensures Collect(ancestors, opts).Ok? ==>
            Collect(ancestors, opts).value == Kept(Visited(ancestors, opts.maxCount), opts)
  {
    var visited := Visited(ancestors, opts.maxCount);
    if Scan(visited, opts).Ok? {
      ScanOkHasNoFault(visited, opts);
    }
    if NoFault(visited, opts.filter) {
      ScanIsKept(visited, opts);
    }
  }

  // ---------------------------------------------------------------------
  // Properties of the reference

  lemma {:induction false} KeptBounds(s: seq<Ancestor>, opts: Options)
    ensures |Kept(s, opts)| <= |s|
  {
    if s != [] {
      KeptBounds(s[1..], opts);
    }
  }

  /** Every kept row passed the filter, and its message has no trailing whitespace when trimming is on. */
  lemma {:induction false} KeptRowsPassFilter(s: seq<Ancestor>, opts: Options)
    ensures forall r :: r in Kept(s, opts) ==>
              && Accepts(r.author, opts.filter)
              && (opts.trimMessage ==> r.message == [] || !IsWhitespace(r.message[|r.message| - 1]))
  {
    if s != [] {
      KeptRowsPassFilter(s[1..], opts);
    }
  }

  /** When every commit is kept and readable, every commit becomes a row, in order. */
  lemma {:induction false} KeptEverything(s: seq<Ancestor>, opts: Options)
    requires forall i :: 0 <= i < |s| ==> Keeps(s[i], opts.filter) && Readable(s[i])
    ensures |Kept(s, opts)| == |s|
    ensures forall i :: 0 <= i < |s| ==> Kept(s, opts)[i] == RecordOf(s[i], opts.trimMessage)
  {
    if s != [] {
      KeptEverything(s[1..], opts);
    }
  }

  /**
    The stored message: with trimming on, the raw message less its trailing
    whitespace, a prefix that does not itself end in whitespace; with
    trimming off, the raw message unchanged.
   */
  lemma StoredMessageTrimsOnlyWhenAsked(raw: string, trim: bool)
    ensures trim ==>
              && StoredMessage(raw, trim) <= raw
              && (forall k :: |StoredMessage(raw, trim)| <= k < |raw| ==> IsWhitespace(raw[k]))
              && StoredMessage(raw, trim) == TrimEnd(StoredMessage(raw, trim))
    ensures !trim ==> StoredMessage(raw, trim) == raw
  {
    if trim {
      TrimEndIdempotent(raw);
    }
  }

  // ---------------------------------------------------------------------
  // The cap and the filter

  /** A run yields at most maxCount rows and at most one per ancestor; maxCount 0 yields none. */
  lemma CollectBounds(ancestors: seq<Ancestor>, opts: Options)
    ensures Collect(ancestors, opts).Ok? ==>
            |Collect(ancestors, opts).value| <= opts.maxCount && |Collect(ancestors, opts).value| <= |ancestors|
    ensures opts.maxCount == 0 ==> Collect(ancestors, opts) == Ok([])
  {
    CollectIsFilterOfTake(ancestors, opts);
    KeptBounds(Visited(ancestors, opts.maxCount), opts);
  }

  /** Ancestors past the cap are never read: whatever follows, even a fault, changes nothing. */
  lemma CollectIgnoresBeyondCap(ancestors: seq<Ancestor>, more: seq<Ancestor>, opts: Options)
    requires opts.maxCount <= |ancestors|
    ensures Collect(ancestors + more, opts) == Collect(ancestors, opts)
  {
    assert (ancestors + more)[..opts.maxCount] == ancestors[..opts.maxCount];
  }

  /**
    Every row of a run passed every filter that is set: the author name
    matches exactly and the author time lies within the inclusive bounds.
    With trimming on, no stored message ends in whitespace.
   */
  lemma CollectRowsMatchFilter(ancestors: seq<Ancestor>, opts: Options)
    requires Collect(ancestors, opts).Ok?
    ensures forall r :: r in Collect(ancestors, opts).value ==>
              && (opts.filter.author.None? || r.author.name == opts.filter.author.value)
              && (opts.filter.since.None? || opts.filter.since.value <= r.author.seconds)
              && (opts.filter.until.None? || r.author.seconds <= opts.filter.until.value)
              && (opts.trimMessage ==> r.message == [] || !IsWhitespace(r.message[|r.message| - 1]))
  {
    CollectIsFilterOfTake(ancestors, opts);
    KeptRowsPassFilter(Visited(ancestors, opts.maxCount), opts);
  }

  /** Without a filter, a walk of readable commits yields one row per visited commit, in walk order. */
  lemma NoFilterKeepsEveryVisited(ancestors: seq<Ancestor>, opts: Options)
    requires opts.filter == Filter(None, None, None)
    requires forall i :: 0 <= i < |ancestors| && i < opts.maxCount ==> Readable(ancestors[i])
    ensures Collect(ancestors, opts).Ok?
    ensures |Collect(ancestors, opts).value| == if opts.maxCount < |ancestors| then opts.maxCount else |ancestors|
    ensures forall i :: 0 <= i < |Collect(ancestors, opts).value| ==>
              Collect(ancestors, opts).value[i] == RecordOf(ancestors[i], opts.trimMessage)
  {
    var visited := Visited(ancestors, opts.maxCount);
    assert forall i :: 0 <= i < |visited| ==> visited[i] == ancestors[i];
    KeptEverything(visited, opts);
    CollectIsFilterOfTake(ancestors, opts);
  }

  /**
    The cap counts visited commits, not accepted ones. Here the walk holds
    an accepted, readable commit, but the one rejected commit before it
    uses up a cap of 1, so the run yields no row at all. A reading in which
    the writer returns the first maxCount accepted commits would give one.
   */
  lemma CapCountsVisitedCommits()
    ensures var other := Signature("other", "other@example.com", 0);
            var me := Signature("me", "me@example.com", 0);
            var rejected := Commit("c1", Some(other), Some("m1"), Some(other), []);
            var accepted := Commit("c2", Some(me), Some("m2"), Some(me), ["c1"]);
            var opts := Options(false, 1, Filter(Some("me"), None, None));
            && Keeps(accepted, opts.filter) && Readable(accepted)
            && Collect([rejected, accepted], opts) == Ok([])
  {
    var other := Signature("other", "other@example.com", 0);
    var rejected := Commit("c1", Some(other), Some("m1"), Some(other), []);
    assert [rejected, rejected][..1] == [rejected];
    assert [rejected][..0] == [];
  }

  // ---------------------------------------------------------------------
  // The batch

  /**
    The columns of any rows make a valid batch under the writer's schema:
    nine columns of the schema's types, no nulls, and one entry per row in
    each, so building the record batch never fails.
   */
  lemma ColumnsConform(rows: seq<CommitRecord>)
    ensures TryNew(GetArrowSchema(), ColumnsOf(rows)) == Ok(RecordBatch(GetArrowSchema(), ColumnsOf(rows), |rows|))
  {
    var columns := ColumnsOf(rows);
    AllValidHasNoNulls(|rows|);
    assert Len(columns[0]) == |rows|;
    assert forall i :: 0 <= i < |columns| ==> Len(columns[i]) == |rows|;
    assert forall i :: 0 <= i < |columns| ==> NullCount(columns[i]) == 0;
    assert forall i :: 0 <= i < |columns| ==> DataTypeOf(columns[i]) == GetArrowSchema().fields[i].dataType;
  }

  /**
    Reading row i back out of the columns gives the row's fields: its hash,
    stored message, author and committer name, email and time, and, as a
    valid (non-null) list, exactly its parent ids in order.
   */
  lemma BatchHoldsRows(rows: seq<CommitRecord>, i: nat)
    requires i < |rows|
    ensures var c := ColumnsOf(rows);
            && c[0].strings[i] == rows[i].id
            && c[1].strings[i] == rows[i].message
            && c[2].strings[i] == rows[i].author.name
            && c[3].strings[i] == rows[i].author.email
            && c[4].seconds[i] == rows[i].author.seconds
            && c[5].strings[i] == rows[i].committer.name
            && c[6].strings[i] == rows[i].committer.email
            && c[7].seconds[i] == rows[i].committer.seconds
            && c[8].validity[i]
            && OffsetsValid(c[8].offsets, |rows|, |c[8].items|)
            && c[8].offsets[|rows|] == |c[8].items|
            && ListAt(c[8].offsets, c[8].items, i) == rows[i].parentIds
  {
    ListOfRoundTrip(ParentLists(rows));
  }

  // ---------------------------------------------------------------------
  // The whole run

  /**
    A run succeeds exactly when the head resolves, the walk starts and no
    visited item faults; its batch is then the columns of the collected rows
    under the writer's schema, with one row per row and at most maxCount.
   */
  lemma RunOutcome(history: History, opts: Options)
    ensures Run(history, opts).Ok? <==> history.Ancestry? && Collect(history.ancestors, opts).Ok?
    ensures Run(history, opts).Ok? ==>
            var rows := Collect(history.ancestors, opts).value;
            && Run(history, opts).value == RecordBatch(GetArrowSchema(), ColumnsOf(rows), |rows|)
            && Run(history, opts).value.numRows <= opts.maxCount
  {
    if history.Ancestry? && Collect(history.ancestors, opts).Ok? {
      ColumnsConform(Collect(history.ancestors, opts).value);
      CollectBounds(history.ancestors, opts);
    }
  }

  /**
    The output of a run: always the schema header first; on success exactly
    one batch and the end-of-stream marker after it, and on failure nothing
    after the header.
   */
  lemma EmittedFrames(history: History, opts: Options)
    ensures Emitted(history, opts)[0] == SchemaMessage(GetArrowSchema())
    ensures |Emitted(history, opts)| == if Run(history, opts).Ok? then 3 else 1
    ensures Run(history, opts).Ok? ==>
            && Emitted(history, opts)[1].RecordBatchMessage?
            && Emitted(history, opts)[1].batch.schema == GetArrowSchema()
            && Emitted(history, opts)[1].batch.numRows <= opts.maxCount
            && Emitted(history, opts)[2] == EndOfStream
  {
    RunOutcome(history, opts);
  }

  /** A walk with nothing to visit still emits a batch, with no rows. */
  lemma EmptyWalkEmitsEmptyBatch(ancestors: seq<Ancestor>, opts: Options)
    requires ancestors == [] || opts.maxCount == 0
    ensures Emitted(Ancestry(ancestors), opts) ==
            [SchemaMessage(GetArrowSchema()), RecordBatchMessage(RecordBatch(GetArrowSchema(), ColumnsOf([]), 0)),
             EndOfStream]
  {
    assert Visited(ancestors, opts.maxCount) == [];
    ColumnsConform([]);
  }

  /**
    Three commits C1 <- C2 <- C3 with head C3, no filter and a cap of 10:
    three rows, newest first, and the root commit's parent list is empty.
   */
  lemma LinearHistoryScenario(sig: Signature)
    ensures var c3 := Commit("h3", Some(sig), Some("third"), Some(sig), ["h2"]);
            var c2 := Commit("h2", Some(sig), Some("second"), Some(sig), ["h1"]);
            var c1 := Commit("h1", Some(sig), Some("first"), Some(sig), []);
            var opts := Options(false, 10, Filter(None, None, None));
            && Collect([c3, c2, c1], opts).Ok?
            && var rows := Collect([c3, c2, c1], opts).value;
               && |rows| == 3
               && rows[0].id == "h3" && rows[1].id == "h2" && rows[2].id == "h1"
               && rows[0].parentIds == ["h2"] && rows[2].parentIds == []
               && Run(Ancestry([c3, c2, c1]), opts) == Ok(RecordBatch(GetArrowSchema(), ColumnsOf(rows), 3))
  {
    var c3 := Commit("h3", Some(sig), Some("third"), Some(sig), ["h2"]);
    var c2 := Commit("h2", Some(sig), Some("second"), Some(sig), ["h1"]);
    var c1 := Commit("h1", Some(sig), Some("first"), Some(sig), []);
    var opts := Options(false, 10, Filter(None, None, None));
    NoFilterKeepsEveryVisited([c3, c2, c1], opts);
    RunOutcome(Ancestry([c3, c2, c1]), opts);
  }
}
