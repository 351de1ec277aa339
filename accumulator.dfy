/**
  The column accumulator: the nine column builders of the writer, appended to
  in lock-step, one row per accepted commit. Each string or timestamp column
  is a growable buffer; the parent-hash column is a list builder, a flat buffer
  of items plus one offset and one validity bit per closed row.

  The accumulator knows nothing of commits: it only holds buffers. What its
  contents mean, the columns of the rows accepted so far, is the invariant of
  the loop that drives it (Current() == BuffersOf(rows)), kept by
  BuffersExtend at each append.
 */
module ColumnAccumulation {
  import opened Wrappers
  import opened Errors
  import opened Commits
  import opened Text
  import opened ArrowArrays

  /** A commit whose author, message and committer all decode. */
  predicate Readable(a: Ancestor)
  {
    a.Commit? && a.author.Some? && a.rawMessage.Some? && a.committer.Some?
  }

  /** The message as stored: trimmed of trailing whitespace when asked, verbatim otherwise. */
  function StoredMessage(raw: string, trim: bool): (m: string)
    ensures m <= raw
    ensures forall k :: |m| <= k < |raw| ==> IsWhitespace(raw[k])
    ensures !trim ==> m == raw
  {
    if trim then TrimEnd(raw) else raw
  }

  /** The row an accepted, readable commit becomes. */
  function RecordOf(a: Ancestor, trim: bool): (r: CommitRecord)
    requires Readable(a)
    ensures r.id == a.id && r.parentIds == a.parentIds
    ensures r.author == a.author.value && r.committer == a.committer.value
    ensures r.message <= a.rawMessage.value
  {
    CommitRecord(a.id, StoredMessage(a.rawMessage.value, trim), a.author.value,
                 a.committer.value, a.parentIds)
  }

  // The columns of a sequence of rows.

  datatype TextField = CommitHash | Message | AuthorName | AuthorEmail | CommitterName | CommitterEmail

  datatype TimeField = AuthorTime | CommitterTime

  function TextOf(r: CommitRecord, k: TextField): string
  {
    match k
    case CommitHash => r.id
    case Message => r.message
    case AuthorName => r.author.name
    case AuthorEmail => r.author.email
    case CommitterName => r.committer.name
    case CommitterEmail => r.committer.email
  }

  function TimeOf(r: CommitRecord, k: TimeField): int
  {
    match k
    case AuthorTime => r.author.seconds
    case CommitterTime => r.committer.seconds
  }

  /** A string column: entry i is field k of row i. */
  function Texts(rows: seq<CommitRecord>, k: TextField): seq<string>
  {
    seq(|rows|, i requires 0 <= i < |rows| => TextOf(rows[i], k))
  }

  /** A timestamp column: entry i is time k of row i. */
  function Times(rows: seq<CommitRecord>, k: TimeField): seq<int>
  {
    seq(|rows|, i requires 0 <= i < |rows| => TimeOf(rows[i], k))
  }

  /** The parent-id lists of the rows, one per row. */
  function ParentLists(rows: seq<CommitRecord>): seq<seq<string>>
  {
    seq(|rows|, i requires 0 <= i < |rows| => rows[i].parentIds)
  }

  /**
    The contents of the nine column buffers: one buffer per string or
    timestamp column, and for the parent-hash list column its offsets,
    validity bits and flat item buffer.
   */
  datatype Buffers = Buffers(
    hashes: seq<string>, messages: seq<string>, authorNames: seq<string>, authorEmails: seq<string>,
    authorTimes: seq<int>, committerNames: seq<string>, committerEmails: seq<string>,
    committerTimes: seq<int>, parentOffsets: seq<nat>, parentValidity: seq<bool>, parentItems: seq<string>)

  /** The buffers that hold exactly `rows`, one entry per row in every column. */
  function BuffersOf(rows: seq<CommitRecord>): Buffers
  {
    Buffers(Texts(rows, CommitHash), Texts(rows, Message), Texts(rows, AuthorName), Texts(rows, AuthorEmail),
            Times(rows, AuthorTime), Texts(rows, CommitterName), Texts(rows, CommitterEmail),
            Times(rows, CommitterTime), OffsetsOf(ParentLists(rows)), AllValid(|rows|),
            Flatten(ParentLists(rows)))
  }

  /** The buffers after one more row is appended to each column and the list row is closed. */
  function Appended(b: Buffers, r: CommitRecord): Buffers
  {
    Buffers(b.hashes + [r.id], b.messages + [r.message], b.authorNames + [r.author.name],
            b.authorEmails + [r.author.email], b.authorTimes + [r.author.seconds],
            b.committerNames + [r.committer.name], b.committerEmails + [r.committer.email],
            b.committerTimes + [r.committer.seconds], b.parentOffsets + [|b.parentItems| + |r.parentIds|],
            b.parentValidity + [true], b.parentItems + r.parentIds)
  }

  /** The finished arrays, in schema order. */
  function Finished(b: Buffers): seq<Column>
  {
    [ StringArray(b.hashes), StringArray(b.messages), StringArray(b.authorNames),
      StringArray(b.authorEmails), TimestampSecondArray(b.authorTimes),
      StringArray(b.committerNames), StringArray(b.committerEmails),
      TimestampSecondArray(b.committerTimes),
      ListArray(b.parentOffsets, b.parentValidity, b.parentItems) ]
  }

  /** The nine arrays of a batch holding `rows`, in schema order. */
  function ColumnsOf(rows: seq<CommitRecord>): seq<Column>
  {
    Finished(BuffersOf(rows))
  }

  /** Appending one row appends one entry to a string column ... */
  lemma TextsExtend(rows: seq<CommitRecord>, record: CommitRecord, k: TextField)
    ensures Texts(rows + [record], k) == Texts(rows, k) + [TextOf(record, k)]
  {
  }

  /** ... to a timestamp column ... */
  lemma TimesExtend(rows: seq<CommitRecord>, record: CommitRecord, k: TimeField)
    ensures Times(rows + [record], k) == Times(rows, k) + [TimeOf(record, k)]
  {
  }

  /** ... and one closed row to the parent-hash list column. */
  lemma ParentsExtend(rows: seq<CommitRecord>, record: CommitRecord)
    ensures ParentLists(rows + [record]) == ParentLists(rows) + [record.parentIds]
    ensures AllValid(|rows + [record]|) == AllValid(|rows|) + [true]
  {
  }

  /** Appending a row to the buffers of `rows` gives the buffers of the longer sequence. */
  lemma BuffersExtend(rows: seq<CommitRecord>, record: CommitRecord)
    ensures BuffersOf(rows + [record]) == Appended(BuffersOf(rows), record)
  {
    TextsExtend(rows, record, CommitHash);
    TextsExtend(rows, record, Message);
    TextsExtend(rows, record, AuthorName);
    TextsExtend(rows, record, AuthorEmail);
    TimesExtend(rows, record, AuthorTime);
    TextsExtend(rows, record, CommitterName);
    TextsExtend(rows, record, CommitterEmail);
    TimesExtend(rows, record, CommitterTime);
    ParentsExtend(rows, record);
    ListsExtend(ParentLists(rows), record.parentIds);
  }

  class ColumnAccumulator {
    var hashes: seq<string>
    var messages: seq<string>
    var authorNames: seq<string>
    var authorEmails: seq<string>
    var authorTimes: seq<int>
    var committerNames: seq<string>
    var committerEmails: seq<string>
    var committerTimes: seq<int>
    var parentOffsets: seq<nat>
    var parentValidity: seq<bool>
    var parentItems: seq<string>

    /** The buffers as they stand. */
    function Current(): Buffers
      reads this
    {
      Buffers(hashes, messages, authorNames, authorEmails, authorTimes, committerNames,
              committerEmails, committerTimes, parentOffsets, parentValidity, parentItems)
    }

    constructor ()
      ensures Current() == BuffersOf([])
    {
      hashes, messages, authorNames, authorEmails := [], [], [], [];
      authorTimes := [];
      committerNames, committerEmails := [], [];
      committerTimes := [];
      parentOffsets, parentValidity, parentItems := [0], [], [];
    }

    /**
      Appends an accepted commit, column by column in schema order. The
      message and the committer are read on the way; when either cannot be
      read the append stops with that error and the accumulator is abandoned.
     */
    method AppendCommit(a: Ancestor, trimMessage: bool) returns (r: Result<(), Error>)
      requires a.Commit? && a.author.Some?
      modifies this
      ensures r.Ok? <==> Readable(a)
      ensures r.Err? ==> r.error == if a.rawMessage.None? then MessageUnreadable else CommitterUnreadable
      ensures r.Ok? ==> Current() == Appended(old(Current()), RecordOf(a, trimMessage))
    {
      ghost var before := Current();
      hashes := hashes + [a.id];

      if a.rawMessage.None? {
        return Err(MessageUnreadable);
      }
      var message := a.rawMessage.value;
      messages := messages + [StoredMessage(message, trimMessage)];

      AppendAuthor(a.author.value);

      if a.committer.None? {
        return Err(CommitterUnreadable);
      }
      AppendCommitter(a.committer.value);

      AppendParents(a.parentIds);

      var record := RecordOf(a, trimMessage);
      assert Current() == Appended(before, record);
      r := Ok(());
    }

    /** Appends the author's name, email and time to their three columns. */
    method AppendAuthor(author: Signature)
      modifies this`authorNames, this`authorEmails, this`authorTimes
      ensures authorNames == old(authorNames) + [author.name]
      ensures authorEmails == old(authorEmails) + [author.email]
      ensures authorTimes == old(authorTimes) + [author.seconds]
    {
      authorNames := authorNames + [author.name];
      authorEmails := authorEmails + [author.email];
      authorTimes := authorTimes + [author.seconds];
    }

    /** Appends the committer's name, email and time to their three columns. */
    method AppendCommitter(committer: Signature)
      modifies this`committerNames, this`committerEmails, this`committerTimes
      ensures committerNames == old(committerNames) + [committer.name]
      ensures committerEmails == old(committerEmails) + [committer.email]
      ensures committerTimes == old(committerTimes) + [committer.seconds]
    {
      committerNames := committerNames + [committer.name];
      committerEmails := committerEmails + [committer.email];
      committerTimes := committerTimes + [committer.seconds];
    }

    /**
      Appends one row to the parent-hash list builder: each parent id goes
      into the item buffer, then closing the row records the new item count
      as the row's end offset and marks the row valid.
     */
    method AppendParents(ids: seq<string>)
      modifies this`parentItems, this`parentOffsets, this`parentValidity
      ensures parentItems == old(parentItems) + ids
      ensures parentOffsets == old(parentOffsets) + [|old(parentItems)| + |ids|]
      ensures parentValidity == old(parentValidity) + [true]
    {
      var j := 0;
      while j < |ids|
        invariant j <= |ids|
        invariant parentItems == old(parentItems) + ids[..j]
        modifies this`parentItems
      {
        parentItems := parentItems + [ids[j]];
        j := j + 1;
      }
      assert ids[..j] == ids;
      parentOffsets := parentOffsets + [|parentItems|];
      parentValidity := parentValidity + [true];
    }

    /** Finishes every builder into its array, in schema order. */
    method Finish() returns (columns: seq<Column>)
      ensures columns == Finished(Current())
    {
      columns := [
        StringArray(hashes), StringArray(messages), StringArray(authorNames), StringArray(authorEmails),
        TimestampSecondArray(authorTimes),
        StringArray(committerNames), StringArray(committerEmails),
        TimestampSecondArray(committerTimes),
        ListArray(parentOffsets, parentValidity, parentItems)
      ];
    }
  }
}
