/**
  The fixed output schema: nine columns describing one commit each, in a fixed
  order, none of them nullable; only the items inside the parent-hash lists may
  be null.
 */
module ArrowSchema {
  import opened Wrappers

  datatype TimeUnit = Second | Millisecond | Microsecond | Nanosecond

  /** The Arrow data types the schema uses. */
  datatype DataType =
    | Utf8
    | Timestamp(unit: TimeUnit, timezone: Option<string>)
    | List(item: Field)

  datatype Field = Field(name: string, dataType: DataType, nullable: bool)

  datatype Schema = Schema(fields: seq<Field>)

  /** Seconds since the epoch, with no time zone attached. */
  const TimestampSecond: DataType := Timestamp(Second, None)

  /** The item field of a list of strings, as a list builder declares it. */
  const ParentItem: Field := Field("item", Utf8, true)

  /** The column names, in column order. */
  const ColumnNames: seq<string> := [
    "commit_hash", "message", "author_name", "author_email", "author_timestamp",
    "committer_name", "committer_email", "committer_timestamp", "parent_hashes"
  ]

  /** Whether a field, or a field nested in its type, may hold nulls. */
  predicate AdmitsNull(f: Field)
  {
    f.nullable || (f.dataType.List? && f.dataType.item.nullable)
  }

  function GetArrowSchema(): (s: Schema)
    ensures |s.fields| == |ColumnNames| == 9
    ensures forall i :: 0 <= i < 9 ==> s.fields[i].name == ColumnNames[i] && !s.fields[i].nullable
    ensures forall i :: 0 <= i < 9 ==> (AdmitsNull(s.fields[i]) <==> s.fields[i].name == "parent_hashes")
    ensures forall i :: 0 <= i < 9 && i != 4 && i != 7 && i != 8 ==> s.fields[i].dataType == Utf8
    ensures s.fields[4].dataType == s.fields[7].dataType == Timestamp(Second, None)
    ensures s.fields[8].dataType == List(Field("item", Utf8, true))
  {
    Schema([
      Field("commit_hash", Utf8, false),
      Field("message", Utf8, false),
      Field("author_name", Utf8, false),
      Field("author_email", Utf8, false),
      Field("author_timestamp", TimestampSecond, false),
      Field("committer_name", Utf8, false),
      Field("committer_email", Utf8, false),
      Field("committer_timestamp", TimestampSecond, false),
      Field("parent_hashes", List(ParentItem), false)
    ])
  }

  /** No two columns share a name, so a reader can address every column by name. */
  lemma ColumnNamesDistinct()
    ensures forall i, j :: 0 <= i < j < |ColumnNames| ==> ColumnNames[i] != ColumnNames[j]
  {
  }
}
