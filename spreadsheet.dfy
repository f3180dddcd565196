/** The decoded workbook as the upload handler sees it after `XLSX.read`, and
    the choice of sheet and header row a template makes
    (pages/api/upload-settlement.ts, lines 141-151). */
module Spreadsheet {
  import opened Outcomes
  import opened JsonValues
  import NumberText

  /** A cell as `sheet_to_json` with `header: 1` yields it; `Empty` is a
      missing cell (`undefined`). */
  datatype Cell = Empty | Text(s: string) | Num(n: int) | Bool(b: bool)

  type Row = seq<Cell>

  type Grid = seq<Row>

  datatype Sheet = Sheet(name: string, grid: Grid)

  /** The sheets in the workbook's `SheetNames` order. */
  type Workbook = seq<Sheet>

  /** A 1-based row number. */
  type RowNumber = n: nat | n >= 1 witness 1

  /** What can go wrong between reading the workbook and having the records;
      the handler throws each of these and marks the upload failed. */
  datatype ParseError =
    | UnreadableFile              // `XLSX.read` throws
    | SheetNotFound(name: string) // line 147
    | UnsupportedStartRow         // a `startRow` this model does not interpret
    | MappingValueNull(field: string) // `null.key` throws at line 157
    | HeaderRowMissing            // `undefined.indexOf` throws at line 158
    | NoValidRows                 // line 177

  /** `columnMapping.sheetName || workbook.SheetNames[0]`, converted to the
      property key that indexes `workbook.Sheets`. */
  function SheetKey(mapping: Json, wb: Workbook): string {
    var named := Get(mapping, "sheetName");
    if named.Some? && Truthy(named.value) then JsString(named.value)
    else if wb != [] then wb[0].name
    else "undefined"
  }

  /** `workbook.Sheets[name]`. */
  function FindSheet(wb: Workbook, name: string): (r: Option<Grid>)
    ensures r.None? <==> forall i :: 0 <= i < |wb| ==> wb[i].name != name
    ensures r.Some? ==> exists i :: 0 <= i < |wb| && wb[i].name == name && wb[i].grid == r.value
  {
    if wb == [] then None
    else if wb[0].name == name then Some(wb[0].grid)
    else
      var r := FindSheet(wb[1..], name);
      assert forall i :: 1 <= i < |wb| ==> wb[i] == wb[1..][i - 1];
      r
  }

  /** Lines 142-148: the named sheet, else the first; a named sheet that is
      absent is an error and never falls back to another sheet. */
  function SelectSheet(mapping: Json, wb: Workbook): Result<Grid, ParseError> {
    var key := SheetKey(mapping, wb);
    match FindSheet(wb, key)
    case None => Failure(SheetNotFound(key))
    case Some(grid) => Success(grid)
  }

  lemma SheetDefaultsToFirst(mapping: Json, wb: Workbook)
    requires wb != []
    requires Get(mapping, "sheetName").None? || !Truthy(Get(mapping, "sheetName").value)
    ensures SelectSheet(mapping, wb) == Success(wb[0].grid)
  {
  }

  lemma NamedSheetHasNoFallback(mapping: Json, wb: Workbook, name: string)
    requires Get(mapping, "sheetName") == Some(JStr(name)) && name != ""
    ensures (forall i :: 0 <= i < |wb| ==> wb[i].name != name) ==> SelectSheet(mapping, wb) == Failure(SheetNotFound(name))
    ensures (exists i :: 0 <= i < |wb| && wb[i].name == name) ==>
              exists i :: 0 <= i < |wb| && wb[i].name == name && SelectSheet(mapping, wb) == Success(wb[i].grid)
  {
  }

  /** Line 143 and the `range: startRow - 1` of line 149: `startRow || 1`.
      A positive JSON number, `true` (which `-` converts to 1), or a string
      of digits that `-` converts to a positive number is a row number; the
      model gives no meaning to any other value. */
  function StartRow(mapping: Json): Option<RowNumber> {
    match Or(Get(mapping, "startRow"), JNum(1))
    case JNum(n) => if n >= 1 then Some(n) else None
    case JBool(b) => if b then Some(1) else None
    case JStr(s) =>
      if s != "" && NumberText.AllDigits(s) && NumberText.DigitsValue(s) >= 1
      then Some(NumberText.DigitsValue(s)) else None
    case _ => None
  }

  /** `sheet_to_json(worksheet, { header: 1, range: start - 1 })`: the rows
      from the header row on. */
  function RowsFrom(grid: Grid, start: RowNumber): (rows: seq<Row>)
    ensures |rows| == if start - 1 < |grid| then |grid| - (start - 1) else 0
    ensures forall i :: 0 <= i < |rows| ==> rows[i] == grid[start - 1 + i]
  {
    if start - 1 <= |grid| then grid[start - 1..] else []
  }

  /** `jsonData[0]`: `None` is `undefined`, when the sheet has no row at the
      start position. */
  function HeaderRow(rows: seq<Row>): Option<Row> {
    if rows == [] then None else Some(rows[0])
  }

  /** `jsonData.slice(1)`. */
  function DataRows(rows: seq<Row>): seq<Row> {
    if rows == [] then [] else rows[1..]
  }

  /** Sheet row `start` (counted from 1) is the header and the rows after it
      are the data; past the last row there is neither. */
  lemma StartRowWindow(grid: Grid, start: RowNumber)
    ensures start <= |grid| ==>
      HeaderRow(RowsFrom(grid, start)) == Some(grid[start - 1]) && DataRows(RowsFrom(grid, start)) == grid[start..]
    ensures start > |grid| ==> HeaderRow(RowsFrom(grid, start)) == None && DataRows(RowsFrom(grid, start)) == []
  {
    if start <= |grid| {
      var rows := RowsFrom(grid, start);
      assert rows[1..] == grid[start..];
    }
  }

  lemma StartRowDefaultsToOne(mapping: Json)
    requires Get(mapping, "startRow").None? || !Truthy(Get(mapping, "startRow").value)
    ensures StartRow(mapping) == Some(1)
  {
  }
}
