/**
 * Decoding of a query's current row: column types, per-column values, typed
 * lookups by index or name, iteration over the values and the row's textual
 * description.
 *
 * The prepared statement the row reads from is modelled as the finite
 * sequence of its result columns. Each `ColumnData` records the column's
 * name, its fundamental datatype code and what each `sqlite3_column_*`
 * accessor returns for it; the C calls themselves are not part of this model.
 */
module Rows {
  import opened Wrappers
  import opened SQLite

  // ---------------------------------------------------------------------------
  // Column types

  /** The five fundamental datatypes of SQLite. */
  datatype ColumnType = Integer | Float | Text | Blob | Null

  /** The `sqlite3.h` code of a column type. */
  function RawValue(t: ColumnType): (code: int32)
    ensures code in {SQLITE_INTEGER, SQLITE_FLOAT, SQLITE_TEXT, SQLITE_BLOB, SQLITE_NULL}
    ensures FromRawValue(code) == t
  {
    match t
    case Integer => SQLITE_INTEGER
    case Float => SQLITE_FLOAT
    case Text => SQLITE_TEXT
    case Blob => SQLITE_BLOB
    case Null => SQLITE_NULL
  }

  /** The column type of a code; every code other than the integer, float, text and blob codes is `Null`. */
  function FromRawValue(code: int32): (t: ColumnType)
    ensures t == Integer <==> code == SQLITE_INTEGER
    ensures t == Float <==> code == SQLITE_FLOAT
    ensures t == Text <==> code == SQLITE_TEXT
    ensures t == Blob <==> code == SQLITE_BLOB
    ensures t == Null <==> code !in {SQLITE_INTEGER, SQLITE_FLOAT, SQLITE_TEXT, SQLITE_BLOB}
  {
    if code == SQLITE_INTEGER then Integer
    else if code == SQLITE_FLOAT then Float
    else if code == SQLITE_TEXT then Text
    else if code == SQLITE_BLOB then Blob
    else Null
  }

  /** The human-readable name of a column type. */
  function Name(t: ColumnType): (s: string)
    ensures s == "integer" <==> t == Integer
    ensures s == "float" <==> t == Float
    ensures s == "text" <==> t == Text
    ensures s == "blob" <==> t == Blob
    ensures s == "null" <==> t == Null
  {
    match t
    case Integer => "integer"
    case Float => "float"
    case Text => "text"
    case Blob => "blob"
    case Null => "null"
  }

  /** Distinct column types have distinct names. */
  lemma NameInjective(t: ColumnType, u: ColumnType)
    ensures Name(t) == Name(u) ==> t == u
  {
  }

  /** Distinct column types have distinct codes (a consequence of the round trip in `RawValue`). */
  lemma RawValueInjective(t: ColumnType, u: ColumnType)
    ensures RawValue(t) == RawValue(u) ==> t == u
  {
  }

  // ---------------------------------------------------------------------------
  // Statements, rows and values

  /** One result column of a prepared statement positioned on a row. */
  datatype ColumnData = ColumnData(
    name: string,
    typeCode: int32,           // sqlite3_column_type
    int64Value: int64,         // sqlite3_column_int64
    doubleValue: real,         // sqlite3_column_double
    textValue: string,         // the Swift String built from sqlite3_column_text
    blobBytes: Option<seq<byte>>  // sqlite3_column_blob and _bytes; None is a null pointer
  )

  /** A row reads from the statement that produced it. */
  datatype Row = Row(statement: seq<ColumnData>)

  /** A column value, tagged with the Swift type it is extracted as. */
  datatype Value =
    | Int64Value(i: int64)
    | DoubleValue(d: real)
    | StringValue(s: string)
    | DataValue(bytes: seq<byte>)

  /** The column type whose storage class a value has. */
  function StorageClass(v: Value): ColumnType {
    match v
    case Int64Value(_) => Integer
    case DoubleValue(_) => Float
    case StringValue(_) => Text
    case DataValue(_) => Blob
  }

  /** `columnCount`: the number of the statement's result columns. */
  function ColumnCount(row: Row): (n: nat)
    ensures n == |row.statement|
  {
    |row.statement|
  }

  predicate ValidIndex(row: Row, i: int) {
    0 <= i < ColumnCount(row)
  }

  /** The type of column `i` as the statement reports it. */
  function ColumnTypeAt(row: Row, i: int): (t: ColumnType)
    requires ValidIndex(row, i)
    ensures t != Null ==> RawValue(t) == row.statement[i].typeCode
    ensures t == Null <==> row.statement[i].typeCode !in {SQLITE_INTEGER, SQLITE_FLOAT, SQLITE_TEXT, SQLITE_BLOB}
  {
    FromRawValue(row.statement[i].typeCode)
  }

  /**
   * The value of column `i`: nil for a NULL column, for an unrecognised type
   * code and for a BLOB whose byte pointer is null; otherwise the accessor's
   * result for the column's storage class.
   */
  function ValueOf(row: Row, i: int): (r: Option<Value>)
    requires ValidIndex(row, i)
    ensures r.None? <==> ColumnTypeAt(row, i) == Null || (ColumnTypeAt(row, i) == Blob && row.statement[i].blobBytes.None?)
    ensures r.Some? ==> StorageClass(r.value) == ColumnTypeAt(row, i)
    ensures r.Some? && r.value.Int64Value? ==> r.value.i == row.statement[i].int64Value
    ensures r.Some? && r.value.DoubleValue? ==> r.value.d == row.statement[i].doubleValue
    ensures r.Some? && r.value.StringValue? ==> r.value.s == row.statement[i].textValue
    ensures r.Some? && r.value.DataValue? ==> Some(r.value.bytes) == row.statement[i].blobBytes
  {
    var c := row.statement[i];
    if c.typeCode == SQLITE_NULL then None
    else if c.typeCode == SQLITE_INTEGER then Some(Int64Value(c.int64Value))
    else if c.typeCode == SQLITE_FLOAT then Some(DoubleValue(c.doubleValue))
    else if c.typeCode == SQLITE_TEXT then Some(StringValue(c.textValue))
    else if c.typeCode == SQLITE_BLOB then
      match c.blobBytes
      case None => None
      case Some(bytes) => Some(DataValue(bytes))
    else None
  }

  /** `value(at:)`: switches on the column's type code, assigning the value it extracts. */
  method ValueAt(row: Row, i: int) returns (value: Option<Value>)
    requires ValidIndex(row, i)
    ensures value == ValueOf(row, i)
  {
    value := None;
    var c := row.statement[i];
    if c.typeCode == SQLITE_NULL {
      value := None;
    } else if c.typeCode == SQLITE_INTEGER {
      value := Some(Int64Value(c.int64Value));
    } else if c.typeCode == SQLITE_FLOAT {
      value := Some(DoubleValue(c.doubleValue));
    } else if c.typeCode == SQLITE_TEXT {
      value := Some(StringValue(c.textValue));
    } else if c.typeCode == SQLITE_BLOB {
      match c.blobBytes {
        case None =>
        case Some(bytes) => value := Some(DataValue(bytes));
      }
    }
  }

  // ---------------------------------------------------------------------------
  // Columns

  datatype Column = Column(index: nat, name: string, columnType: ColumnType, value: Option<Value>)

  /** One `Column` per result column, in index order. */
  function Columns(row: Row): (cs: seq<Column>)
    ensures |cs| == ColumnCount(row)
    ensures forall i | 0 <= i < |cs| ::
              && cs[i].index == i
              && cs[i].name == row.statement[i].name
              && cs[i].columnType == FromRawValue(row.statement[i].typeCode)
              && cs[i].value == ValueOf(row, i)
  {
    seq(ColumnCount(row), i requires 0 <= i < ColumnCount(row) =>
      Column(i, row.statement[i].name, ColumnTypeAt(row, i), ValueOf(row, i)))
  }

  /**
   * A column's value agrees with its type: it is present exactly when the type
   * is not `Null` (and, for a BLOB, the byte pointer is not null), and then it
   * has that type's storage class.
   */
  lemma ColumnValueAgreesWithType(row: Row, i: int)
    requires ValidIndex(row, i)
    ensures var c := Columns(row)[i];
      && (c.columnType == Null ==> c.value.None?)
      && (c.columnType in {Integer, Float, Text} ==> c.value.Some?)
      && (c.value.Some? ==> StorageClass(c.value.value) == c.columnType)
  {
  }

  // ---------------------------------------------------------------------------
  // Typed lookups

  /** The Swift binding types a column value can be cast to. */
  datatype BindingType = Int64Binding | DoubleBinding | StringBinding | DataBinding

  /** The storage class whose values a binding type holds. */
  function BindingStorageClass(b: BindingType): ColumnType {
    match b
    case Int64Binding => Integer
    case DoubleBinding => Float
    case StringBinding => Text
    case DataBinding => Blob
  }

  /** `value as? BindingType`: the cast succeeds exactly when the value has that binding type's storage class. */
  predicate IsOfBindingType(v: Value, b: BindingType)
    ensures IsOfBindingType(v, b) <==> StorageClass(v) == BindingStorageClass(b)
  {
    match b
    case Int64Binding => v.Int64Value?
    case DoubleBinding => v.DoubleValue?
    case StringBinding => v.StringValue?
    case DataBinding => v.DataValue?
  }

  /**
   * An `Extractable` type: its binding type and its conversion from a binding
   * value, which fails (`as? T` is nil) when the conversion does not yield a `T`.
   */
  datatype Extractable<T> = Extractable(bindingType: BindingType, fromBindingValue: Value -> Option<T>)

  /** The typed value of column `i`, or nil. */
  function TypedValueAt<T>(row: Row, i: int, ext: Extractable<T>): (r: Option<T>)
    requires ValidIndex(row, i)
    ensures ValueOf(row, i).None? ==> r.None?
    ensures ValueOf(row, i).Some? && !IsOfBindingType(ValueOf(row, i).value, ext.bindingType) ==> r.None?
    ensures ValueOf(row, i).Some? && IsOfBindingType(ValueOf(row, i).value, ext.bindingType) ==>
              r == ext.fromBindingValue(ValueOf(row, i).value)
  {
    match ValueOf(row, i)
    case None => None
    case Some(v) => if IsOfBindingType(v, ext.bindingType) then ext.fromBindingValue(v) else None
  }

  /** The index of the first column named `name`, if any. */
  function ColumnIndex(row: Row, name: string): (r: Option<nat>)
    ensures r.None? <==> forall i | 0 <= i < ColumnCount(row) :: row.statement[i].name != name
    ensures r.Some? ==> ValidIndex(row, r.value) && row.statement[r.value].name == name
                        && forall j | 0 <= j < r.value :: row.statement[j].name != name
  {
    ColumnIndexFrom(row.statement, name, 0)
  }

  function ColumnIndexFrom(cols: seq<ColumnData>, name: string, k: nat): (r: Option<nat>)
    requires k <= |cols|
    ensures r.None? <==> forall i | k <= i < |cols| :: cols[i].name != name
    ensures r.Some? ==> k <= r.value < |cols| && cols[r.value].name == name
                        && forall j | k <= j < r.value :: cols[j].name != name
    decreases |cols| - k
  {
    if k == |cols| then None
    else if cols[k].name == name then Some(k)
    else ColumnIndexFrom(cols, name, k + 1)
  }

  /** The typed value of the column named `name`, or nil when no column has that name. */
  function TypedValueNamed<T>(row: Row, name: string, ext: Extractable<T>): (r: Option<T>)
    ensures ColumnIndex(row, name).None? ==> r.None?
    ensures ColumnIndex(row, name).Some? ==> r == TypedValueAt(row, ColumnIndex(row, name).value, ext)
  {
    match ColumnIndex(row, name)
    case None => None
    case Some(i) => TypedValueAt(row, i, ext)
  }

  /** The non-optional index subscript: force-unwraps, so the typed value must be present. */
  function SubscriptAt<T>(row: Row, i: int, ext: Extractable<T>): (r: T)
    requires ValidIndex(row, i) && TypedValueAt(row, i, ext).Some?
    ensures ValueOf(row, i).Some? && IsOfBindingType(ValueOf(row, i).value, ext.bindingType)
    ensures ext.fromBindingValue(ValueOf(row, i).value) == Some(r)
  {
    TypedValueAt(row, i, ext).value
  }

  /** The non-optional name subscript: the named column must exist and its typed value be present. */
  function SubscriptNamed<T>(row: Row, name: string, ext: Extractable<T>): (r: T)
    requires TypedValueNamed(row, name, ext).Some?
    ensures ColumnIndex(row, name).Some?
    ensures var i := ColumnIndex(row, name).value;
      row.statement[i].name == name && ext.fromBindingValue(ValueOf(row, i).value) == Some(r)
  {
    TypedValueNamed(row, name, ext).value
  }

  // ---------------------------------------------------------------------------
  // Iteration

  /** Every column's value, in index order. */
  function AllValues(row: Row): (vs: seq<Option<Value>>)
    ensures |vs| == ColumnCount(row)
    ensures forall i | 0 <= i < |vs| :: vs[i] == ValueOf(row, i)
  {
    seq(ColumnCount(row), i requires 0 <= i < ColumnCount(row) => ValueOf(row, i))
  }

  /** The iterator `makeIterator` returns: it captures a mutable index starting at 0. */
  class RowIterator {
    const row: Row
    var currentIndex: nat

    ghost predicate Valid()
      reads this
    {
      currentIndex <= ColumnCount(row)
    }

    constructor (row: Row)
      ensures this.row == row && currentIndex == 0 && Valid()
    {
      this.row := row;
      currentIndex := 0;
    }

    /** The next column's value (the inner option), or nil (the outer option) once every column was read. */
    method Next() returns (r: Option<Option<Value>>)
      requires Valid()
      modifies this
      ensures Valid()
      ensures r.None? <==> old(currentIndex) == ColumnCount(row)
      ensures r.Some? ==> r.value == ValueOf(row, old(currentIndex)) && currentIndex == old(currentIndex) + 1
      ensures r.None? ==> currentIndex == old(currentIndex)
    {
      if currentIndex >= ColumnCount(row) {
        return None;
      }
      var value := ValueAt(row, currentIndex);
      currentIndex := currentIndex + 1;
      r := Some(value);
    }
  }

  /** `values`: drives a fresh iterator to its end, collecting what it yields. */
  method Values(row: Row) returns (vs: seq<Option<Value>>)
    ensures vs == AllValues(row)
  {
    var it := new RowIterator(row);
    vs := [];
    var next := it.Next();
    while next.Some?
      invariant it.Valid() && it.row == row
      invariant next.None? ==> it.currentIndex == ColumnCount(row)
      invariant next.Some? ==> 1 <= it.currentIndex && next.value == ValueOf(row, it.currentIndex - 1)
      invariant |vs| == if next.Some? then it.currentIndex - 1 else it.currentIndex
      invariant forall k | 0 <= k < |vs| :: vs[k] == ValueOf(row, k)
      decreases ColumnCount(row) - it.currentIndex, next.Some?
    {
      vs := vs + [next.value];
      next := it.Next();
    }
  }

  // ---------------------------------------------------------------------------
  // Description

  /**
   * How one value is shown: a string in single quotes, nil as `NULL`, and any
   * other value as `describe` renders it (Swift's `String(describing:)`).
   */
  function Item(v: Option<Value>, describe: Value -> string): (s: string)
    ensures v.None? ==> s == "NULL"
    ensures v.Some? && v.value.StringValue? ==> s == "'" + v.value.s + "'"
    ensures v.Some? && !v.value.StringValue? ==> s == describe(v.value)
  {
    match v
    case None => "NULL"
    case Some(StringValue(text)) => "'" + text + "'"
    case Some(other) => describe(other)
  }

  function Items(vs: seq<Option<Value>>, describe: Value -> string): (ss: seq<string>)
    ensures |ss| == |vs|
    ensures forall i | 0 <= i < |vs| :: ss[i] == Item(vs[i], describe)
  {
    seq(|vs|, i requires 0 <= i < |vs| => Item(vs[i], describe))
  }

  /** `joined(separator:)`: the strings with `sep` between each two neighbours. */
  function Join(ss: seq<string>, sep: string): (r: string)
    ensures ss == [] ==> r == ""
    ensures |r| >= TotalLength(ss)
  {
    if |ss| == 0 then ""
    else if |ss| == 1 then ss[0]
    else ss[0] + sep + Join(ss[1..], sep)
  }

  function TotalLength(ss: seq<string>): nat {
    if ss == [] then 0 else |ss[0]| + TotalLength(ss[1..])
  }

  /** The joined string starts with the first string and ends with the last. */
  lemma {:induction false} JoinEnds(ss: seq<string>, sep: string)
    requires |ss| > 0
    ensures var r := Join(ss, sep);
      && |ss[0]| <= |r| && r[..|ss[0]|] == ss[0]
      && |ss[|ss| - 1]| <= |r| && r[|r| - |ss[|ss| - 1]|..] == ss[|ss| - 1]
  {
    if |ss| > 1 {
      JoinEnds(ss[1..], sep);
      var rest := Join(ss[1..], sep);
      var last := ss[|ss| - 1];
      assert ss[1..][|ss[1..]| - 1] == last;
      assert Join(ss, sep) == (ss[0] + sep) + rest;
      assert (ss[0] + sep + rest)[|ss[0] + sep + rest| - |last|..] == rest[|rest| - |last|..];
    }
  }

  /** Joining adds one separator between each two neighbours and nothing else. */
  lemma {:induction false} JoinLength(ss: seq<string>, sep: string)
    requires |ss| > 0
    ensures |Join(ss, sep)| == TotalLength(ss) + (|ss| - 1) * |sep|
  {
    if |ss| > 1 {
      JoinLength(ss[1..], sep);
    }
  }

  /** Appending a string to a non-empty list appends a separator and that string. */
  lemma {:induction false} JoinSnoc(ss: seq<string>, s: string, sep: string)
    requires |ss| > 0
    ensures Join(ss + [s], sep) == Join(ss, sep) + sep + s
  {
    if |ss| == 1 {
      assert (ss + [s])[1..] == [s];
    } else {
      assert (ss + [s])[1..] == ss[1..] + [s];
      JoinSnoc(ss[1..], s, sep);
    }
  }

  /** The row's description: its items, comma-separated, in square brackets. */
  function Description(row: Row, describe: Value -> string): (d: string)
    ensures |d| >= 2 && d[0] == '[' && d[|d| - 1] == ']'
    ensures d[1..|d| - 1] == Join(Items(AllValues(row), describe), ", ")
  {
    "[" + Join(Items(AllValues(row), describe), ", ") + "]"
  }

  /** A row with no columns is described as `[]`; the description grows by one item per column. */
  lemma {:induction false} DescriptionLength(row: Row, describe: Value -> string)
    ensures var items := Items(AllValues(row), describe);
      |Description(row, describe)| == 2 + TotalLength(items) + (if |items| == 0 then 0 else 2 * (|items| - 1))
  {
    var items := Items(AllValues(row), describe);
    if |items| > 0 {
      JoinLength(items, ", ");
    }
  }

  /** Describing one more column appends `, ` and that column's item before the closing bracket. */
  lemma DescriptionSnoc(cols: seq<ColumnData>, c: ColumnData, describe: Value -> string)
    requires |cols| > 0
    ensures var last := Item(ValueOf(Row(cols + [c]), |cols|), describe);
      var d := Description(Row(cols), describe);
      Description(Row(cols + [c]), describe) == d[..|d| - 1] + ", " + last + "]"
  {
    var r, r' := Row(cols), Row(cols + [c]);
    var items := Items(AllValues(r), describe);
    var items' := Items(AllValues(r'), describe);
    var last := Item(ValueOf(r', |cols|), describe);
    forall i | 0 <= i < |cols| ensures ValueOf(r', i) == ValueOf(r, i) {
      assert r'.statement[i] == r.statement[i];
    }
    assert items' == items + [last];
    JoinSnoc(items, last, ", ");
    BracketedSnoc(Join(items, ", "), last);
  }

  lemma BracketedSnoc(j: string, last: string)
    ensures var d := "[" + j + "]"; "[" + (j + ", " + last) + "]" == d[..|d| - 1] + ", " + last + "]"
  {
    var d := "[" + j + "]";
    assert d[..|d| - 1] == "[" + j;
  }
}
