/** The two file parsers of the importer. The CSV and spreadsheet libraries
    are foreign code: what they make of a file is given as data (the rows of
    a CSV parse, the sheets of a workbook). Modelled here is what the parsers
    do with those rows: map each one to the four product fields, replacing
    falsy cells with "" or 0. */
module Parsers {
  import opened Wrappers
  import opened JsValues
  import opened ProductSchema

  /** One row as the library returns it: column header to cell value. */
  type RawRow = map<string, Value>

  /** `row.key`: a missing column reads as `undefined`. */
  function Cell(row: RawRow, key: string): Value
  {
    if key in row then row[key] else Undefined
  }

  /** `String(v || "")`. */
  function TextOr(v: Value): (t: string)
    ensures t == "" <==> !Truthy(v)
    ensures Truthy(v) ==> t == ToText(v)
  {
    if Truthy(v) then TruthyTextNonEmpty(v); ToText(v) else ToText(Str(""))
  }

  /** `Number(v || 0)`. */
  function NumberOr(v: Value): (n: Num)
    ensures !Truthy(v) ==> n == Finite(0.0)
    ensures Truthy(v) ==> n == ToNumber(v)
  {
    if Truthy(v) then ToNumber(v) else ToNumber(Number(Finite(0.0)))
  }

  /** The row normaliser shared by both parsers. Every output row has all
      four fields; a missing or falsy cell is defaulted, never dropped. */
  function NormalizeRow(row: RawRow): (p: ParsedRow)
    ensures p.name == "" <==> !Truthy(Cell(row, "name"))
    ensures p.description == "" <==> !Truthy(Cell(row, "description"))
    ensures Truthy(Cell(row, "name")) ==> p.name == ToText(Cell(row, "name"))
    ensures Truthy(Cell(row, "description")) ==> p.description == ToText(Cell(row, "description"))
    ensures !Truthy(Cell(row, "price")) ==> p.price == Finite(0.0)
    ensures !Truthy(Cell(row, "quantity")) ==> p.quantity == Finite(0.0)
    ensures Truthy(Cell(row, "price")) ==> p.price == ToNumber(Cell(row, "price"))
    ensures Truthy(Cell(row, "quantity")) ==> p.quantity == ToNumber(Cell(row, "quantity"))
  {
    ParsedRow(
      TextOr(Cell(row, "name")),
      TextOr(Cell(row, "description")),
      NumberOr(Cell(row, "price")),
      NumberOr(Cell(row, "quantity")))
  }

  /** A normalised number is `NaN` only when the cell held text that is not
      a number, or an invalid date. */
  lemma NaNOrigins(v: Value)
    requires NumberOr(v).NaN?
    ensures (v.Str? && TextToNumber(v.s).NaN?) || v == DateObject(None)
  {
  }

  /** What the CSV library returns: the data rows (the header line gives the
      keys; empty lines are skipped) and its warnings. */
  datatype CsvParseResult = CsvParseResult(data: seq<RawRow>, errors: seq<string>)

  /** `CSVParser.parse`: one normalised row per data row, in order. Warnings
      are only logged; they never change or stop the result. */
  function ParseCsv(result: CsvParseResult): (rows: seq<ParsedRow>)
    ensures |rows| == |result.data|
    ensures forall i :: 0 <= i < |rows| ==> rows[i] == NormalizeRow(result.data[i])
  {
    seq(|result.data|, i requires 0 <= i < |result.data| => NormalizeRow(result.data[i]))
  }

  /** A workbook as the spreadsheet library reads it: sheet names in order,
      and the rows each named sheet converts to. */
  datatype Workbook = Workbook(sheetNames: seq<string>, sheets: map<string, seq<RawRow>>)

  /** `sheet_to_json(workbook.Sheets[workbook.SheetNames[0]])`. Only the first
      sheet is read; a workbook without one converts to no rows. */
  function FirstSheetRows(wb: Workbook): (rows: seq<RawRow>)
    ensures |wb.sheetNames| > 0 && wb.sheetNames[0] in wb.sheets ==> rows == wb.sheets[wb.sheetNames[0]]
    ensures |wb.sheetNames| == 0 ==> rows == []
  {
    if |wb.sheetNames| > 0 && wb.sheetNames[0] in wb.sheets then wb.sheets[wb.sheetNames[0]] else []
  }

  /** `ExcelParser.parse`: one normalised row per row of the first sheet, in
      order. */
  function ParseExcel(wb: Workbook): (rows: seq<ParsedRow>)
    ensures |rows| == |FirstSheetRows(wb)|
    ensures forall i :: 0 <= i < |rows| ==> rows[i] == NormalizeRow(FirstSheetRows(wb)[i])
  {
    var data := FirstSheetRows(wb);
    seq(|data|, i requires 0 <= i < |data| => NormalizeRow(data[i]))
  }

  /** Sheets after the first never influence the result. */
  lemma OnlyFirstSheetMatters(wb: Workbook, other: Workbook)
    requires |wb.sheetNames| > 0 && |other.sheetNames| > 0
    requires wb.sheetNames[0] == other.sheetNames[0]
    requires wb.sheetNames[0] in wb.sheets && other.sheetNames[0] in other.sheets
    requires wb.sheets[wb.sheetNames[0]] == other.sheets[other.sheetNames[0]]
    ensures ParseExcel(wb) == ParseExcel(other)
  {
  }
}
