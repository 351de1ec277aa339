/**
  Arrow columns as the writer builds them: growable builders that are appended
  to in place and then finished into immutable arrays, and the record batch
  that joins the nine arrays under the schema.
 */
module ArrowArrays {
  import opened Wrappers
  import opened Errors
  import opened ArrowSchema

  /**
    A finished array. A list array holds one offset more than it has rows:
    row i is the slice items[offsets[i]..offsets[i + 1]], and validity[i] says
    whether row i is a list at all (false is a null list).
   */
  datatype Column =
    | StringArray(strings: seq<string>)
    | TimestampSecondArray(seconds: seq<int>)
    | ListArray(offsets: seq<nat>, validity: seq<bool>, items: seq<string>)

  /** The number of rows of an array. */
  function Len(c: Column): nat
  {
    match c
    case StringArray(strings) => |strings|
    case TimestampSecondArray(seconds) => |seconds|
    case ListArray(_, validity, _) => |validity|
  }

  function DataTypeOf(c: Column): DataType
  {
    match c
    case StringArray(_) => Utf8
    case TimestampSecondArray(_) => TimestampSecond
    case ListArray(_, _, _) => List(ParentItem)
  }

  /** The number of false entries of a validity sequence. */
  function CountNulls(validity: seq<bool>): (n: nat)
    ensures n <= |validity|
    ensures n == 0 <==> forall i :: 0 <= i < |validity| ==> validity[i]
  {
    if validity == [] then 0
    else CountNulls(validity[..|validity| - 1]) + (if validity[|validity| - 1] then 0 else 1)
  }

  /** Only list arrays carry nulls here: the string and time builders are only ever given values. */
  function NullCount(c: Column): nat
  {
    match c
    case ListArray(_, validity, _) => CountNulls(validity)
    case _ => 0
  }

  /**
    The shape of list offsets: one more offset than rows, starting at 0,
    never decreasing, and never past the end of the items.
   */
  predicate OffsetsValid(offsets: seq<nat>, rows: nat, itemCount: nat)
  {
    && |offsets| == rows + 1
    && offsets[0] == 0
    && offsets[rows] <= itemCount
    && forall i, j :: 0 <= i <= j < |offsets| ==> offsets[i] <= offsets[j]
  }

  /** Row `i` of a list array: the items between its two offsets. */
  function ListAt(offsets: seq<nat>, items: seq<string>, i: nat): seq<string>
    requires i + 1 < |offsets|
    requires OffsetsValid(offsets, |offsets| - 1, |items|)
  {
    items[offsets[i]..offsets[i + 1]]
  }

  // The list array that a sequence of lists becomes.

  /** All items of all lists, in order. */
  function Flatten(lists: seq<seq<string>>): seq<string>
  {
    if lists == [] then [] else Flatten(lists[..|lists| - 1]) + lists[|lists| - 1]
  }

  /** One offset per list boundary; the last is the total number of items (see OffsetsCount). */
  function OffsetsOf(lists: seq<seq<string>>): (offsets: seq<nat>)
    ensures |offsets| == |lists| + 1
    ensures offsets[0] == 0
    ensures offsets[|lists|] == |Flatten(lists)|
  {
    if lists == [] then [0] else OffsetsOf(lists[..|lists| - 1]) + [|Flatten(lists)|]
  }

  /** Offset i is the number of items in the first i lists. */
  lemma {:induction false} OffsetsCount(lists: seq<seq<string>>, i: nat)
    requires i <= |lists|
    ensures OffsetsOf(lists)[i] == |Flatten(lists[..i])|
    decreases |lists|
  {
    if i == |lists| {
      assert lists[..i] == lists;
    } else {
      var init := lists[..|lists| - 1];
      assert init[..i] == lists[..i];
      OffsetsCount(init, i);
    }
  }

  /** One more list adds its items at the end and one offset, the new item count. */
  lemma ListsExtend(lists: seq<seq<string>>, list: seq<string>)
    ensures Flatten(lists + [list]) == Flatten(lists) + list
    ensures OffsetsOf(lists + [list]) == OffsetsOf(lists) + [|Flatten(lists)| + |list|]
  {
    assert (lists + [list])[..|lists|] == lists;
  }

  /** A validity sequence with no nulls. */
  function AllValid(n: nat): seq<bool>
  {
    seq(n, _ => true)
  }

  lemma {:induction false} FlattenAppend(a: seq<seq<string>>, b: seq<seq<string>>)
    ensures Flatten(a + b) == Flatten(a) + Flatten(b)
    decreases |b|
  {
    if b != [] {
      var b' := b[..|b| - 1];
      assert (a + b)[..|a + b| - 1] == a + b';
      FlattenAppend(a, b');
    } else {
      assert a + b == a;
    }
  }

  /**
    The list array built from `lists` is well formed and gives back every list:
    row i is exactly lists[i], in order, and the last offset is the number of items.
   */
  lemma {:induction false} ListOfRoundTrip(lists: seq<seq<string>>)
    ensures OffsetsValid(OffsetsOf(lists), |lists|, |Flatten(lists)|)
    ensures OffsetsOf(lists)[|lists|] == |Flatten(lists)|
    ensures forall i :: 0 <= i < |lists| ==> ListAt(OffsetsOf(lists), Flatten(lists), i) == lists[i]
  {
    var offsets := OffsetsOf(lists);
    forall i, j | 0 <= i <= j < |offsets|
      ensures offsets[i] <= offsets[j]
    {
      OffsetsCount(lists, i);
      OffsetsCount(lists, j);
      assert lists[..j] == lists[..i] + lists[i..j];
      FlattenAppend(lists[..i], lists[i..j]);
    }
    forall i | 0 <= i < |lists|
      ensures ListAt(offsets, Flatten(lists), i) == lists[i]
    {
      OffsetsCount(lists, i);
      OffsetsCount(lists, i + 1);
      assert lists[..i + 1] == lists[..i] + [lists[i]];
      FlattenAppend(lists[..i], [lists[i]]);
      assert Flatten([lists[i]]) == lists[i] by {
        assert [lists[i]][..0] == [];
      }
      assert lists == lists[..i + 1] + lists[i + 1..];
      FlattenAppend(lists[..i + 1], lists[i + 1..]);
    }
  }

  lemma {:induction false} AllValidHasNoNulls(n: nat)
    ensures |AllValid(n)| == n && CountNulls(AllValid(n)) == 0
  {
  }

  // The record batch.

  datatype RecordBatch = RecordBatch(schema: Schema, columns: seq<Column>, numRows: nat)

  /**
    The checks a record batch makes of its columns before it accepts them:
    one column per field, at least one column to take the row count from, no
    nulls where the field forbids them, all columns as long as the first, and
    each column of its field's type.
   */
  predicate Conforms(schema: Schema, columns: seq<Column>)
  {
    && |columns| == |schema.fields|
    && |columns| > 0
    && (forall i :: 0 <= i < |columns| ==> schema.fields[i].nullable || NullCount(columns[i]) == 0)
    && (forall i :: 0 <= i < |columns| ==> Len(columns[i]) == Len(columns[0]))
    && (forall i :: 0 <= i < |columns| ==> DataTypeOf(columns[i]) == schema.fields[i].dataType)
  }

  /** RecordBatch::try_new: the batch when the columns conform, an error otherwise. */
  function TryNew(schema: Schema, columns: seq<Column>): (r: Result<RecordBatch, Error>)
    ensures r.Ok? <==> Conforms(schema, columns)
    ensures r.Ok? ==> r.value.schema == schema && r.value.columns == columns
    ensures r.Ok? ==> forall i :: 0 <= i < |columns| ==> Len(columns[i]) == r.value.numRows
  {
    if |columns| != |schema.fields| then Err(InvalidBatch)
    else if |columns| == 0 then Err(InvalidBatch)
    else if exists i :: 0 <= i < |columns| && !schema.fields[i].nullable && NullCount(columns[i]) > 0 then Err(InvalidBatch)
    else if exists i :: 0 <= i < |columns| && Len(columns[i]) != Len(columns[0]) then Err(InvalidBatch)
    else if exists i :: 0 <= i < |columns| && DataTypeOf(columns[i]) != schema.fields[i].dataType then Err(InvalidBatch)
    else Ok(RecordBatch(schema, columns, Len(columns[0])))
  }
}
