/** How SnowflakeDataViewSet.execute_snowflake_query turns what the cursor returned into
    the dictionary {success, data: {columns, results, row_count}} or {success, error}. */
module SqlResults {
  import opened Wrappers

  /** A value in a result row: SQL NULL (Python None), an integer, or text. */
  datatype Cell = SqlNull | SqlInt(i: int) | SqlText(s: string)

  type Row = seq<Cell>

  /** One formatted result: a Python dict from column name to value. */
  type Record = map<string, Cell>

  /** What running a query against the warehouse did: the cursor's fetched rows and its
      `description` (one column name per entry, None when the cursor has none), or the
      exception raised anywhere between connecting and fetching, with its message. */
  datatype DbOutcome =
    | Fetched(rows: seq<Row>, description: Option<seq<string>>)
    | Raised(message: string)

  datatype QueryData = QueryData(columns: seq<string>, results: seq<Record>, rowCount: nat)

  /** `{'success': True, 'data': ...}` or `{'success': False, 'error': str(e)}`. */
  datatype QueryResult = Success(data: QueryData) | Failure(error: string)

  function Min(a: nat, b: nat): nat {
    if a <= b then a else b
  }

  /** `dict(zip(names, row))`: pairs up to the shorter of the two; on a repeated column
      name the later pair overwrites the earlier one. */
  function ZipRecord(names: seq<string>, row: Row): (r: Record)
    ensures forall k :: k in r <==> k in names[..Min(|names|, |row|)]
  {
    var n := Min(|names|, |row|);
    Pairs(names[..n], row[..n])
  }

  /** Inserting the pairs one after another, from the first to the last. */
  function Pairs(names: seq<string>, values: seq<Cell>): (r: Record)
    requires |names| == |values|
    ensures forall k :: k in r <==> k in names
  {
    if names == [] then map[]
    else
      var k := |names| - 1;
      Pairs(names[..k], values[..k])[names[k] := values[k]]
  }

  lemma {:induction false} PairsAt(names: seq<string>, values: seq<Cell>, i: nat)
    requires |names| == |values| && i < |names|
    requires names[i] !in names[i + 1..]
    ensures names[i] in Pairs(names, values) && Pairs(names, values)[names[i]] == values[i]
  {
    var k := |names| - 1;
    if i < k {
      assert names[k] in names[i + 1..];
      assert names[..k][i + 1..] == names[i + 1..k];
      assert names[i + 1..] == names[i + 1..k] + [names[k]];
      PairsAt(names[..k], values[..k], i);
    }
  }

  /** Each column maps to the value at its position, unless a later column has the same name. */
  lemma ZipRecordAt(names: seq<string>, row: Row, i: nat)
    requires i < |names| && i < |row|
    requires names[i] !in names[i + 1..Min(|names|, |row|)]
    ensures names[i] in ZipRecord(names, row) && ZipRecord(names, row)[names[i]] == row[i]
  {
    var n := Min(|names|, |row|);
    assert names[..n][i + 1..] == names[i + 1..n];
    PairsAt(names[..n], row[..n], i);
  }

  /** With distinct column names every column maps to the value at its position. */
  lemma ZipRecordDistinct(names: seq<string>, row: Row, i: nat)
    requires forall a, b :: 0 <= a < b < |names| ==> names[a] != names[b]
    requires i < |names| && i < |row|
    ensures names[i] in ZipRecord(names, row) && ZipRecord(names, row)[names[i]] == row[i]
  {
    var n := Min(|names|, |row|);
    assert names[i] !in names[i + 1..n];
    ZipRecordAt(names, row, i);
  }

  /** The second and third cells of a row, read through three distinct column names. */
  lemma ThreeColumnRecord(names: seq<string>, row: Row)
    requires |names| == 3 && |row| == 3
    requires names[0] != names[1] && names[0] != names[2] && names[1] != names[2]
    ensures var r := ZipRecord(names, row);
      names[1] in r && r[names[1]] == row[1] && names[2] in r && r[names[2]] == row[2]
  {
    ZipRecordDistinct(names, row, 1);
    ZipRecordDistinct(names, row, 2);
  }

  /** `[desc[0] for desc in cur.description] if cur.description else []`. */
  function ColumnNames(description: Option<seq<string>>): (cols: seq<string>)
    ensures description.None? ==> cols == []
    ensures description.Some? ==> cols == description.value
  {
    if description.None? || description.value == [] then [] else description.value
  }

  function ExecuteQuery(o: DbOutcome): (r: QueryResult)
    ensures r.Failure? <==> o.Raised?
    ensures o.Raised? ==> r.error == o.message
    ensures o.Fetched? ==> r.data.columns == ColumnNames(o.description)
    ensures o.Fetched? ==> r.data.rowCount == |o.rows| == |r.data.results|
    ensures o.Fetched? ==> forall i :: 0 <= i < |o.rows| ==>
      r.data.results[i] == ZipRecord(r.data.columns, o.rows[i])
  {
    match o
    case Raised(message) => Failure(message)
    case Fetched(rows, description) =>
      var columns := ColumnNames(description);
      Success(QueryData(columns, seq(|rows|, i requires 0 <= i < |rows| => ZipRecord(columns, rows[i])), |rows|))
  }

  /** `results[0] if results else None`. */
  function FirstOrNone(data: QueryData): (r: Option<Record>)
    ensures r.None? <==> data.results == []
    ensures r.Some? ==> r.value == data.results[0]
  {
    if data.results == [] then None else Some(data.results[0])
  }

  /** The first formatted row of a successful query, read column by column. */
  lemma FirstRowOfFetched(rows: seq<Row>, names: seq<string>, i: nat)
    requires rows != [] && names != []
    requires forall a, b :: 0 <= a < b < |names| ==> names[a] != names[b]
    requires i < |names| && |rows[0]| == |names|
    ensures var r := ExecuteQuery(Fetched(rows, Some(names)));
      r.Success? && FirstOrNone(r.data).Some? &&
      names[i] in FirstOrNone(r.data).value && FirstOrNone(r.data).value[names[i]] == rows[0][i]
  {
    ZipRecordDistinct(names, rows[0], i);
  }
}
