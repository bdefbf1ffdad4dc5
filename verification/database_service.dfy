/** `DatabaseService`: run a query on a configured database and turn the
    reader's rows into name-to-value dictionaries, up to a row limit.

    Opening the connection and executing the command are one input, which
    yields the rows the reader would produce or the exception it raised. A
    row value is of the abstract type `V`; `DBNull` is a separate raw value. */
module DatabaseService {
  import opened Base
  import opened Text
  import opened Config

  /** What `IDataReader.GetValue` returns: `DBNull.Value` or a value. */
  datatype RawValue<V> = DbNull | Value(v: V)

  /** One column of a reader row: `GetName(i)` (possibly `null`) and `GetValue(i)`. */
  datatype RawField<V> = RawField(name: Option<string>, value: RawValue<V>)

  type RawRow<V> = seq<RawField<V>>

  /** A `Dictionary<string, object>` built without removals: its keys in
      insertion order and the value stored under each (`None` for `null`). */
  datatype Row<V> = Row(keys: seq<string>, values: map<string, Option<V>>)

  ghost predicate ValidRow<V>(row: Row<V>) {
    && (forall i, j :: 0 <= i < j < |row.keys| ==> row.keys[i] != row.keys[j])
    && (forall k :: k in row.values <==> k in row.keys)
  }

  /** The dictionary's indexer write: an existing key keeps its place and
      takes the new value; a new key is appended. */
  function Assign<V>(row: Row<V>, key: string, value: Option<V>): (r: Row<V>)
    requires ValidRow(row)
    ensures ValidRow(r)
    ensures r.values == row.values[key := value]
    ensures key in row.values ==> r.keys == row.keys
    ensures key !in row.values ==> r.keys == row.keys + [key]
  {
    if key in row.values then Row(row.keys, row.values[key := value])
    else Row(row.keys + [key], row.values[key := value])
  }

  /** `GetName(i) ?? $"Column{i}"`. */
  function FieldName<V>(f: RawField<V>, i: nat): string {
    match f.name
    case Some(n) => n
    case None => "Column" + NatToString(i)
  }

  /** `DBNull` becomes `null`. */
  function CellOf<V>(raw: RawValue<V>): (r: Option<V>)
    ensures r.None? <==> raw.DbNull?
  {
    match raw
    case DbNull => None
    case Value(v) => Some(v)
  }

  /** The dictionary for the first `n` columns of a reader row. */
  function BuildRow<V>(fields: RawRow<V>, n: nat): (r: Row<V>)
    requires n <= |fields|
    ensures ValidRow(r)
    decreases n
  {
    if n == 0 then Row([], map[])
    else Assign(BuildRow(fields, n - 1), FieldName(fields[n - 1], n - 1), CellOf(fields[n - 1].value))
  }

  /** A column name is a key of the row exactly when some column has it. */
  lemma {:induction false} BuildRowKeys<V>(fields: RawRow<V>, n: nat, k: string)
    requires n <= |fields|
    ensures k in BuildRow(fields, n).values <==> exists j :: 0 <= j < n && FieldName(fields[j], j) == k
    decreases n
  {
    if n > 0 {
      BuildRowKeys(fields, n - 1, k);
      var last := FieldName(fields[n - 1], n - 1);
      var prev := BuildRow(fields, n - 1);
      assert BuildRow(fields, n).values == prev.values[last := CellOf(fields[n - 1].value)];
      if k == last {
        assert FieldName(fields[n - 1], n - 1) == k;
      } else if k in prev.values {
        var j :| 0 <= j < n - 1 && FieldName(fields[j], j) == k;
        assert 0 <= j < n;
      } else {
        assert forall j :: 0 <= j < n ==> FieldName(fields[j], j) != k;
      }
    }
  }

  /** Each key holds the value of the last column with that name. */
  lemma {:induction false} BuildRowLastWins<V>(fields: RawRow<V>, n: nat, j: nat)
    requires j < n <= |fields|
    requires forall j' :: j < j' < n ==> FieldName(fields[j'], j') != FieldName(fields[j], j)
    ensures FieldName(fields[j], j) in BuildRow(fields, n).values
    ensures BuildRow(fields, n).values[FieldName(fields[j], j)] == CellOf(fields[j].value)
    decreases n
  {
    var key := FieldName(fields[j], j);
    var prev := BuildRow(fields, n - 1);
    assert BuildRow(fields, n).values == prev.values[FieldName(fields[n - 1], n - 1) := CellOf(fields[n - 1].value)];
    if j < n - 1 {
      BuildRowLastWins(fields, n - 1, j);
      assert FieldName(fields[n - 1], n - 1) != key;
    }
  }

  function RowOf<V>(fields: RawRow<V>): Row<V> {
    BuildRow(fields, |fields|)
  }

  /** `ReadResults`: `Read()` is called before the row count is compared
      with `maxRows`, so the result is the first `min(n, maxRows)` rows, and
      none at all when `maxRows` is not positive. */
  function ReadResults<V>(reader: seq<RawRow<V>>, maxRows: int): (r: seq<Row<V>>)
    ensures |r| == if maxRows <= 0 then 0 else if |reader| < maxRows then |reader| else maxRows
    ensures forall i :: 0 <= i < |r| ==> r[i] == RowOf(reader[i])
    decreases |reader|
  {
    if |reader| == 0 || maxRows <= 0 then []
    else
      var rest := ReadResults(reader[1..], maxRows - 1);
      assert forall i :: 1 <= i < |reader| ==> reader[i] == reader[1..][i - 1];
      [RowOf(reader[0])] + rest
  }

  /** Opening the connection and executing the query text with the timeout:
      the rows read, or the exception raised. */
  type QueryRunner<V> = (DatabaseConfig, string, int) -> Result<seq<RawRow<V>>>

  /** `ExecuteQueryAsync`: an unknown database name raises before anything
      runs; a failure of the connection, the command or the reader is
      rethrown as it is. */
  function ExecuteQuery<V>(databases: seq<DatabaseConfig>, databaseName: string, query: string, timeoutSeconds: int,
                           maxRows: int, run: QueryRunner<V>): (r: Result<seq<Row<V>>>)
    ensures FindDatabase(databases, databaseName).None? ==>
      r == Err(Raise(InvalidOperation, "Database '" + databaseName + "' not found"))
    ensures FindDatabase(databases, databaseName).Some? ==>
      var d := FindDatabase(databases, databaseName).value;
      && (r.Err? <==> run(d, query, timeoutSeconds).Err?)
      && (r.Err? ==> r.error == run(d, query, timeoutSeconds).error)
      && (r.Ok? ==> r.value == ReadResults(run(d, query, timeoutSeconds).value, maxRows))
  {
    match FindDatabase(databases, databaseName)
    case None => Err(Raise(InvalidOperation, "Database '" + databaseName + "' not found"))
    case Some(d) =>
      var reader :- run(d, query, timeoutSeconds);
      Ok(ReadResults(reader, maxRows))
  }

  /** An unnamed column is keyed by its position. */
  lemma UnnamedColumnKey<V>(fields: RawRow<V>, j: nat)
    requires j < |fields| && fields[j].name.None?
    ensures FieldName(fields[j], j) == "Column" + NatToString(j)
    ensures "Column" + NatToString(j) in RowOf(fields).values
  {
    BuildRowKeys(fields, |fields|, "Column" + NatToString(j));
  }

  /** Two columns with the same name leave one entry, holding the later value. */
  lemma DuplicateColumnLastWins<V>(a: V, b: V)
    ensures RowOf([RawField(Some("x"), Value(a)), RawField(Some("x"), Value(b))]) == Row(["x"], map["x" := Some(b)])
  {
    var fields := [RawField(Some("x"), Value(a)), RawField(Some("x"), Value(b))];
    assert BuildRow(fields, 1) == Row(["x"], map["x" := Some(a)]);
  }
}
