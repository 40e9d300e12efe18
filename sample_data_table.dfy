/** The SampleDataTable component: columns from the first row's keys, then one body row per
    data row with one cell per column. Number formatting is abstract: a numeric cell is
    marked as shown to three decimals. */
module SampleDataTable {
  import opened JsValues

  const NoData := "No sample data available."

  type DataRow = seq<(string, Json)>

  datatype CellText =
    | ThreeDecimals(n: real)   // `value.toFixed(3)`
    | Verbatim(v: Json)        // any other value, as React renders it
    | Blank                    // `undefined`: the row lacks this column

  datatype Table =
    | Message(text: string)
    | Grid(columns: seq<string>, rows: seq<seq<CellText>>)

  /** `typeof row[column] === 'number' ? row[column].toFixed(3) : row[column]`. */
  function Cell(row: DataRow, column: string): (c: CellText)
    ensures Lookup(row, column).None? <==> c.Blank?
    ensures c.ThreeDecimals? <==> Lookup(row, column).Some? && Lookup(row, column).value.JNum?
    ensures c.ThreeDecimals? ==> Lookup(row, column) == Some(JNum(c.n))
    ensures c.Verbatim? ==> Lookup(row, column) == Some(c.v)
  {
    match Lookup(row, column)
    case None => Blank
    case Some(JNum(n)) => ThreeDecimals(n)
    case Some(v) => Verbatim(v)
  }

  /** The table: the message for missing or empty data, otherwise the grid. */
  function Render(data: Option<seq<DataRow>>): (t: Table)
    ensures t.Message? <==> data.None? || data.value == []
    ensures t.Message? ==> t.text == NoData
    ensures t.Grid? ==> t.columns == FieldKeys(data.value[0])
    ensures t.Grid? ==> |t.rows| == |data.value|
    ensures t.Grid? ==> forall r :: 0 <= r < |t.rows| ==> |t.rows[r]| == |t.columns|
    ensures t.Grid? ==> forall r, c :: 0 <= r < |t.rows| && 0 <= c < |t.columns| ==>
              t.rows[r][c] == Cell(data.value[r], t.columns[c])
  {
    if data.None? || data.value == [] then Message(NoData)
    else
      var rows := data.value;
      var columns := FieldKeys(rows[0]);
      Grid(columns, seq(|rows|, r requires 0 <= r < |rows| =>
                      seq(|columns|, c requires 0 <= c < |columns| => Cell(rows[r], columns[c]))))
  }

  /** The first row fills every column: its cells are never blank. */
  lemma FirstRowHasNoBlanks(data: seq<DataRow>, c: nat)
    requires data != [] && c < |FieldKeys(data[0])|
    ensures !Render(Some(data)).rows[0][c].Blank?
  {
    var columns := FieldKeys(data[0]);
    assert columns[c] in columns;
  }

  /** A later row is blank exactly in the columns of the first row that it lacks. */
  lemma BlankMeansMissing(data: seq<DataRow>, r: nat, c: nat)
    requires r < |data| && c < |FieldKeys(data[0])|
    ensures Render(Some(data)).rows[r][c].Blank? <==> FieldKeys(data[0])[c] !in FieldKeys(data[r])
  {
  }
}
