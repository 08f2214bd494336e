/** The export shape the arrivals and suppliers pages share: `json_to_sheet`
    at A1, autosized columns, the header frozen, the header row white on
    blue, and the data rows banded; and the reading side, `sheet_to_json`,
    which turns each row below the header into an object keyed by the
    header texts. */
module TableExport {
  import opened Common
  import opened Sheet

  const TableHeaderStyle := Style(true, White, 0, Center, true, false, HeaderBlue, true, "")

  function BandStyle(fill: string): Style {
    Style(false, "", 0, Unaligned, false, false, fill, true, "")
  }

  /** The band of the `i`-th data row (sheet row i + 2). */
  function RowStyle(i: nat): Style {
    if i % 2 == 0 then BandStyle(LightBlue) else BandStyle(White)
  }

  predicate WellShaped(header: seq<string>, rows: seq<seq<Option<Value>>>) {
    && |header| > 0 && |rows| > 0
    && forall i :: 0 <= i < |rows| ==> |rows[i]| == |header|
  }

  ghost predicate TableKeys(g: Grid, width: nat, n: nat) {
    forall p: (nat, nat) :: p in g <==> p.0 <= n && p.1 < width
  }

  ghost predicate TableHeaderAt(g: Grid, header: seq<string>, styled: bool) {
    forall c :: 0 <= c < |header| ==>
      (0, c) in g && g[(0, c)] == (if styled then Restyle(ValueCell(Text(header[c])), TableHeaderStyle) else ValueCell(Text(header[c])))
  }

  ghost predicate TableBodyAt(g: Grid, header: seq<string>, rows: seq<seq<Option<Value>>>, styled: bool)
    requires WellShaped(header, rows)
  {
    forall r: nat, c: nat :: 1 <= r <= |rows| && c < |header| ==>
      (r, c) in g && g[(r, c)] == (if styled then Restyle(JsonCell(rows[r - 1][c]), RowStyle(r - 1)) else JsonCell(rows[r - 1][c]))
  }

  /** The exported workbook: header and rows at A1, header styled, rows
      banded, nothing else in the sheet, widths fitted to the final cells. */
  ghost predicate TableLayout(
    wb: Workbook, header: seq<string>, rows: seq<seq<Option<Value>>>,
    fileName: string, sheetName: string, show: real -> string)
    requires WellShaped(header, rows)
  {
    var g, n := wb.sheet.cells, |rows|;
    && wb.fileName == fileName && wb.sheetName == sheetName
    && wb.sheet.lastRow == n && wb.sheet.lastCol == |header| - 1
    && wb.sheet.merges == [] && wb.sheet.freezeRows == 1
    && TableKeys(g, |header|, n)
    && TableHeaderAt(g, header, true)
    && TableBodyAt(g, header, rows, true)
    && |wb.sheet.cols| == |header|
    && (forall c :: 0 <= c < |header| ==> wb.sheet.cols[c] == ColumnWidth(g, c, n, show) as real)
  }

  lemma JsonTable(ws: Grid, header: seq<string>, rows: seq<seq<Option<Value>>>)
    requires WellShaped(header, rows)
    requires forall p: (nat, nat) :: p in ws <==> |rows| > 0 && 0 <= p.0 <= 0 + |rows| && p.1 < |header|
    requires |rows| > 0 ==> forall c :: 0 <= c < |header| ==> ws[(0, c)] == ValueCell(Text(header[c]))
    requires forall i, c :: 0 <= i < |rows| && 0 <= c < |header| ==> ws[(0 + 1 + i, c)] == JsonCell(rows[i][c])
    ensures TableKeys(ws, |header|, |rows|) && TableHeaderAt(ws, header, false) && TableBodyAt(ws, header, rows, false)
  {
    forall r: nat, c: nat | 1 <= r <= |rows| && c < |header|
      ensures (r, c) in ws && ws[(r, c)] == JsonCell(rows[r - 1][c])
    {
      assert ws[(0 + 1 + (r - 1), c)] == JsonCell(rows[r - 1][c]);
    }
  }

  lemma StyledTable(ws: Grid, ws2: Grid, ws3: Grid, header: seq<string>, rows: seq<seq<Option<Value>>>)
    requires WellShaped(header, rows)
    requires TableKeys(ws, |header|, |rows|) && TableHeaderAt(ws, header, false) && TableBodyAt(ws, header, rows, false)
    requires ws2.Keys == ws.Keys
    requires forall p: (nat, nat) :: p in ws && InBlock(p, 0, 0, |header| - 1) ==> ws2[p] == Restyle(ws[p], TableHeaderStyle)
    requires forall p: (nat, nat) :: p in ws && !InBlock(p, 0, 0, |header| - 1) ==> ws2[p] == ws[p]
    requires forall p: (nat, nat) :: p in ws2 ==> p in ws3
    requires forall p: (nat, nat) :: InBlock(p, 1, |rows|, |header| - 1) ==>
      p in ws3 && ws3[p] == Banded(ws2, p, 1, BandStyle(LightBlue), BandStyle(White), BlankCell)
    requires forall p: (nat, nat) :: p in ws3 && !InBlock(p, 1, |rows|, |header| - 1) ==> p in ws2 && ws3[p] == ws2[p]
    ensures TableKeys(ws3, |header|, |rows|) && TableHeaderAt(ws3, header, true) && TableBodyAt(ws3, header, rows, true)
    ensures forall p: (nat, nat) :: p in ws3 ==> p in ws && ws3[p].v == ws[p].v
  {
    forall p: (nat, nat) | InBlock(p, 1, |rows|, |header| - 1)
      ensures p in ws2
    {
    }
  }

  /** The export steps shared by the arrivals and suppliers pages. */
  method ExportTable(
    header: seq<string>, rows: seq<seq<Option<Value>>>,
    fileName: string, sheetName: string, show: real -> string)
    returns (wb: Workbook)
    requires WellShaped(header, rows)
    ensures TableLayout(wb, header, rows, fileName, sheetName, show)
  {
    var n, lastCol := |rows|, |header| - 1;
    var ws := JsonToSheet(header, rows, 0);
    JsonTable(ws, header, rows);
    var widths := AutoWidths(ws, n, lastCol, show);
    var ws2 := StyleExisting(ws, 0, 0, lastCol, TableHeaderStyle);
    var ws3 := Band(ws2, 1, n, lastCol, BandStyle(LightBlue), BandStyle(White), BlankCell);
    StyledTable(ws, ws2, ws3, header, rows);
    forall c | 0 <= c <= lastCol
      ensures widths[c] == ColumnWidth(ws3, c, n, show) as real
    {
      WidthsAgree(ws, ws3, c, n + 1, show);
    }
    wb := Workbook(fileName, sheetName, Worksheet(ws3, n, lastCol, widths, [], 1));
  }

  // ---------------------------------------------------------------------
  // Reading a sheet back

  /** The object `sheet_to_json` makes of one row: each text cell under its
      column's header; cells that are not text are not modelled. */
  function RowObject(header: seq<string>, row: seq<Option<Value>>, k: nat): map<string, string>
    requires k <= |header| && k <= |row|
  {
    if k == 0 then map[]
    else
      var m := RowObject(header, row, k - 1);
      match row[k - 1]
      case Some(Text(s)) => m[header[k - 1] := s]
      case _ => m
  }

  /** With distinct headers each key holds exactly its own column's text. */
  lemma {:induction false} RowObjectAt(header: seq<string>, row: seq<Option<Value>>, k: nat, c: nat)
    requires k <= |header| && k <= |row| && c < k
    requires forall a, b :: 0 <= a < b < |header| ==> header[a] != header[b]
    ensures row[c].Some? && row[c].value.Text? ==> header[c] in RowObject(header, row, k) && RowObject(header, row, k)[header[c]] == row[c].value.s
    ensures !(row[c].Some? && row[c].value.Text?) ==> header[c] !in RowObject(header, row, k)
  {
    if c < k - 1 {
      RowObjectAt(header, row, k - 1, c);
    } else if k - 1 > 0 {
      RowObjectMissing(header, row, k - 1, header[c]);
    }
  }

  /** A key that is none of the first `k` headers is not in the object. */
  lemma {:induction false} RowObjectMissing(header: seq<string>, row: seq<Option<Value>>, k: nat, key: string)
    requires k <= |header| && k <= |row|
    requires forall a :: 0 <= a < k ==> header[a] != key
    ensures key !in RowObject(header, row, k)
  {
    if k > 0 {
      RowObjectMissing(header, row, k - 1, key);
    }
  }

  /** The values of row `r`, columns 0..width-1, as they sit in the sheet. */
  function CellValues(g: Grid, r: nat, width: nat): (vs: seq<Option<Value>>)
    ensures |vs| == width
  {
    seq(width, c requires 0 <= c < width => if (r, c) in g then g[(r, c)].v else None)
  }

  /** The header texts of row 0. */
  function HeaderTexts(g: Grid, width: nat): (hs: seq<string>)
    ensures |hs| == width
  {
    seq(width, c requires 0 <= c < width =>
      if (0, c) in g && g[(0, c)].v.Some? && g[(0, c)].v.value.Text? then g[(0, c)].v.value.s else "")
  }

  /** `sheet_to_json` over rows 1..lastRow, columns 0..width-1. */
  function SheetToJson(g: Grid, lastRow: nat, width: nat): (objs: seq<map<string, string>>)
    ensures |objs| == lastRow
  {
    seq(lastRow, i requires 0 <= i < lastRow => RowObject(HeaderTexts(g, width), CellValues(g, i + 1, width), width))
  }

  lemma HeaderBack(g: Grid, header: seq<string>)
    requires TableHeaderAt(g, header, true)
    ensures HeaderTexts(g, |header|) == header
  {
  }

  lemma RowBack(g: Grid, header: seq<string>, rows: seq<seq<Option<Value>>>, i: nat)
    requires WellShaped(header, rows) && i < |rows|
    requires TableBodyAt(g, header, rows, true)
    ensures CellValues(g, i + 1, |header|) == rows[i]
  {
    forall c | 0 <= c < |header|
      ensures CellValues(g, i + 1, |header|)[c] == rows[i][c]
    {
      assert g[(i + 1, c)] == Restyle(JsonCell(rows[i][c]), RowStyle(i));
    }
  }

  /** Reading the exported table back gives, for each exported row, the
      object of its text fields under the header names. */
  lemma ReadBack(g: Grid, header: seq<string>, rows: seq<seq<Option<Value>>>)
    requires WellShaped(header, rows)
    requires TableHeaderAt(g, header, true) && TableBodyAt(g, header, rows, true)
    ensures |SheetToJson(g, |rows|, |header|)| == |rows|
    ensures forall i :: 0 <= i < |rows| ==> SheetToJson(g, |rows|, |header|)[i] == RowObject(header, rows[i], |header|)
  {
    HeaderBack(g, header);
    forall i | 0 <= i < |rows|
      ensures SheetToJson(g, |rows|, |header|)[i] == RowObject(header, rows[i], |header|)
    {
      RowBack(g, header, rows, i);
    }
  }
}
