/** The styled export of one container's line items: a summary box of four
    spreadsheet formulas above a table that starts at A6, a Remaining column
    of per-row formulas, autosized columns, a grey header and light-blue
    banding.  The central property: whatever values a spreadsheet gives the
    cells, the summary box shows the figures the page's statistics compute
    over the exported items. */
module ContainerExport {
  import opened Common
  import opened Records
  import opened Sheet
  import opened ContainerStats

  const Headers: seq<string> := [
    "CODE", "PRODUCT", "CBM", "STATUS", "PRODUCT COST", "PAYMENT", "REMAINING",
    "PROD. READY DATE", "PRODUCTION DAYS", "REMARKS", "NEED", "CONTACT", "EMAIL",
    "PHONE", "SUPPLIER", "ADDRESS", "PRICE TERMS"]

  /** Layout: the header at row 6 (0-based 5), data from row 7, columns A..Q. */
  const HeaderRow: nat := 5
  const FirstDataRow: nat := 6
  /** `ySplit: 5`: the number of rows kept in view when scrolling. */
  const FrozenRows: nat := 5
  const LastCol: nat := 16
  const CodeCol: nat := 0
  const ProductCol: nat := 1
  const CbmCol: nat := 2
  const StatusCol: nat := 3
  const CostCol: nat := 4
  const PaymentCol: nat := 5
  const RemainingCol: nat := 6

  // ---------------------------------------------------------------------
  // Supplier lookup and the PRODUCT column

  /** The suppliers keyed by reference code; a later row with the same code
      replaces an earlier one. */
  function SupplierMap(rows: seq<Supplier>): (m: map<string, Supplier>)
    ensures m.Keys == set i | 0 <= i < |rows| :: rows[i].referenceCode
    ensures forall code :: code in m ==> m[code] in rows && m[code].referenceCode == code
  {
    if |rows| == 0 then map[]
    else
      var prefix, last := rows[..|rows| - 1], rows[|rows| - 1];
      assert rows == prefix + [last];
      SupplierMap(prefix)[last.referenceCode := last]
  }

  /** A supplier row is the one found under its code unless a later row
      carries the same code. */
  lemma {:induction false} SupplierMapLastWins(rows: seq<Supplier>, i: nat)
    requires i < |rows|
    requires forall j :: i < j < |rows| ==> rows[j].referenceCode != rows[i].referenceCode
    ensures SupplierMap(rows)[rows[i].referenceCode] == rows[i]
  {
    if i < |rows| - 1 {
      var prefix := rows[..|rows| - 1];
      SupplierMapLastWins(prefix, i);
    }
  }

  /** The lookup table the page builds on load: empty when the fetch fails. */
  function SupplierIndex(f: Fetch<Supplier>): map<string, Supplier> {
    match f
    case FetchError => map[]
    case Fetched(rows) => SupplierMap(rows)
  }

  /** `supplier?.field || ""`. */
  function SupplierText(suppliers: map<string, Supplier>, code: string, field: Supplier -> Option<string>): string {
    if code in suppliers then TextOr(field(suppliers[code]), "") else ""
  }

  /** The PRODUCT text, on screen and in the file: the code alone when the
      supplier has no product, else the upper-cased product, prefixed with
      the code and a space unless it already starts with the code.  Either
      way the text starts with the code, so the code is never written twice
      at its head. */
  function ProductDisplay(code: string, product: string): (d: string)
    ensures code <= d
    ensures product == "" ==> d == code
    ensures product != "" && code <= Upper(product) ==> d == Upper(product)
    ensures product != "" && !(code <= Upper(product)) ==> d == code + " " + Upper(product)
    ensures product != "" ==> |d| >= |product| && d[|d| - |product|..] == Upper(product)
    ensures |d| <= |code| + 1 + |product|
  {
    var productUpper := Upper(product);
    if product == "" then code
    else if code <= productUpper then productUpper
    else code + " " + productUpper
  }

  // ---------------------------------------------------------------------
  // One exported row

  function NumberField(x: Option<real>): Option<Value> {
    match x
    case Some(v) => Some(Number(v))
    case None => None
  }

  function CountField(x: Option<int>): Option<Value> {
    match x
    case Some(v) => Some(Number(v as real))
    case None => None
  }

  /** PROD. READY DATE: "" for a missing date, otherwise the date as `fmt`
      writes it ("20NOV25"). */
  function ReadyDateText(s: Option<string>, fmt: string -> string): string {
    if TextTruthy(s) then fmt(s.value) else ""
  }

  function NeedText(need: Option<seq<string>>): string {
    match need
    case Some(parts) => Join(parts, ", ")
    case None => ""
  }

  /** The object exported for one line item, in header order; REMAINING is
      a placeholder the formula pass replaces. */
  function ExportRow(item: LineItem, suppliers: map<string, Supplier>, fmt: string -> string): (row: seq<Option<Value>>)
    ensures |row| == |Headers|
    ensures row[CodeCol] == Some(Text(item.referenceCode))
    ensures row[ProductCol] == Some(Text(ProductDisplay(item.referenceCode, SupplierText(suppliers, item.referenceCode, (s: Supplier) => s.product))))
    ensures row[CbmCol] == NumberField(item.cbm) && row[StatusCol] == Some(Text(item.status))
    ensures row[CostCol] == NumberField(item.productCost) && row[PaymentCol] == Some(Number(Paid(item)))
  {
    var code := item.referenceCode;
    [ Some(Text(code)),
      Some(Text(ProductDisplay(code, SupplierText(suppliers, code, (s: Supplier) => s.product)))),
      NumberField(item.cbm),
      Some(Text(item.status)),
      NumberField(item.productCost),
      Some(Number(NumOr0(item.payment))),
      Some(Text("")),
      Some(Text(ReadyDateText(item.productionReady, fmt))),
      CountField(item.productionDays),
      Some(Text(TextOr(item.remarks, ""))),
      Some(Text(NeedText(item.need))),
      Some(Text(SupplierText(suppliers, code, (s: Supplier) => s.contactPerson))),
      Some(Text(SupplierText(suppliers, code, (s: Supplier) => s.email))),
      Some(Text(SupplierText(suppliers, code, (s: Supplier) => s.contactNumber))),
      Some(Text(SupplierText(suppliers, code, (s: Supplier) => Some(s.supplier)))),
      Some(Text(SupplierText(suppliers, code, (s: Supplier) => s.address))),
      Some(Text(TextOr(item.priceTerms, ""))) ]
  }

  // ---------------------------------------------------------------------
  // Formulas

  /** The data rows as a column range: rows 7..6+n of column `c`. */
  function DataColumn(c: nat, n: nat): Area {
    Area(FirstDataRow, c, FirstDataRow + n - 1, c)
  }

  function CbmTotal(n: nat): Expr { SumOf(DataColumn(CbmCol, n)) }
  function CostTotal(n: nat): Expr { SumOf(DataColumn(CostCol, n)) }
  function ReadyCbmTotal(n: nat): Expr { SumIf(DataColumn(StatusCol, n), ReadyToShip, DataColumn(CbmCol, n)) }
  function RemainingTotal(n: nat): Expr { SumOf(DataColumn(RemainingCol, n)) }

  /** The Remaining formula of row `r`: product cost minus payment. */
  function RemainingFormula(r: nat): Expr { Sub(Ref(r, CostCol), Ref(r, PaymentCol)) }

  /** A data column range is written `{col}7:{col}{6 + n}`. */
  lemma DataColumnText(c: nat, n: nat)
    requires n >= 1
    ensures AreaText(DataColumn(c, n)) == ColName(c) + "7:" + ColName(c) + NatStr(6 + n)
  {
    var a, d := ColName(c), NatStr(6 + n);
    assert NatStr(7) == "7";
    assert AreaText(DataColumn(c, n)) == (a + "7") + ":" + (a + d);
    assert (a + "7") + ":" + (a + d) == a + "7:" + a + d;
  }

  /** A SUM over a data column whose letter is `col`. */
  lemma SumText(c: nat, n: nat, col: char)
    requires n >= 1 && ColName(c) == [col]
    ensures Render(SumOf(DataColumn(c, n))) == "SUM(" + [col] + "7:" + [col] + NatStr(6 + n) + ")"
  {
    DataColumnText(c, n);
  }

  /** The formula texts of the summary box are the ones the export writes,
      with the last data row 6 + n (1-based) spelled in decimal. */
  lemma SummaryFormulaTexts(n: nat)
    requires n >= 1
    ensures Render(CbmTotal(n)) == "SUM(" + "C" + "7:" + "C" + NatStr(6 + n) + ")"
    ensures Render(CostTotal(n)) == "SUM(" + "E" + "7:" + "E" + NatStr(6 + n) + ")"
    ensures Render(RemainingTotal(n)) == "SUM(" + "G" + "7:" + "G" + NatStr(6 + n) + ")"
    ensures Render(ReadyCbmTotal(n)) == "SUMIF(" + "D" + "7:" + "D" + NatStr(6 + n) + ",\"READY TO SHIP\"," + "C" + "7:" + "C" + NatStr(6 + n) + ")"
  {
    SumText(CbmCol, n, 'C');
    SumText(CostCol, n, 'E');
    SumText(RemainingCol, n, 'G');
    DataColumnText(StatusCol, n);
    DataColumnText(CbmCol, n);
  }

  /** The Remaining formula of 0-based row `r` is written `E{r+1}-F{r+1}`. */
  lemma RemainingFormulaText(r: nat)
    ensures Render(RemainingFormula(r)) == "E" + NatStr(r + 1) + "-F" + NatStr(r + 1)
  {
    var d := NatStr(r + 1);
    assert ColName(4) == "E" && ColName(5) == "F";
    assert Render(RemainingFormula(r)) == ("E" + d) + "-" + ("F" + d);
    assert ("E" + d) + "-" + ("F" + d) == "E" + d + "-F" + d;
  }

  // ---------------------------------------------------------------------
  // Styles

  const LabelStyle := Style(true, "", 14, Left, true, false, "", false, "")

  function TotalStyle(rgb: string, numFmt: string): Style {
    Style(true, rgb, 14, Right, true, false, "", false, numFmt)
  }

  const HeaderStyle := Style(true, "000000", 0, Center, true, false, "D3D3D3", true, "")

  function BandStyle(fill: string): Style {
    Style(false, "", 0, Unaligned, false, false, fill, true, "")
  }

  /** The band of the `i`-th data row. */
  function DataStyle(i: nat): Style {
    if i % 2 == 0 then BandStyle(LightBlue) else BandStyle(White)
  }

  function LabelCell(text: string): Cell {
    Cell(Some(Text(text)), None, Some(S), Some(LabelStyle))
  }

  function TotalCell(e: Expr, rgb: string, numFmt: string): Cell {
    Cell(None, Some(e), Some(N), Some(TotalStyle(rgb, numFmt)))
  }

  /** The summary box, A1:B4. */
  function SummaryCell(r: nat, c: nat, n: nat): Cell
    requires r <= 3 && c <= 1
  {
    if c == 0 then
      LabelCell(["Total CBM:", "Total Product Cost:", "CBM Ready to Ship:", "Remaining to Pay:"][r])
    else if r == 0 then TotalCell(CbmTotal(n), "0070C0", "0.00")
    else if r == 1 then TotalCell(CostTotal(n), "00B050", "$#,##0.00")
    else if r == 2 then TotalCell(ReadyCbmTotal(n), "00B050", "0.00")
    else TotalCell(RemainingTotal(n), "00B050", "$#,##0.00")
  }

  /** A data cell before styling: the exported field, or the Remaining formula. */
  function DataCell(item: LineItem, suppliers: map<string, Supplier>, fmt: string -> string, r: nat, c: nat): Cell
    requires c <= LastCol
  {
    if c == RemainingCol then FormulaCell(RemainingFormula(r)) else JsonCell(ExportRow(item, suppliers, fmt)[c])
  }

  predicate InSummary(p: (nat, nat)) { p.0 <= 3 && p.1 <= 1 }

  predicate InTable(p: (nat, nat), n: nat) { HeaderRow <= p.0 <= HeaderRow + n && p.1 <= LastCol }

  /** A cell of the header row: the column title, grey once styled. */
  function HeaderCell(c: nat, styled: bool): Cell
    requires c <= LastCol
  {
    var x := ValueCell(Text(Headers[c]));
    if styled then Restyle(x, HeaderStyle) else x
  }

  /** A cell of a data row, banded once styled. */
  function BodyCell(items: seq<LineItem>, suppliers: map<string, Supplier>, fmt: string -> string, r: nat, c: nat, styled: bool): Cell
    requires FirstDataRow <= r < FirstDataRow + |items| && c <= LastCol
  {
    var x := DataCell(items[r - FirstDataRow], suppliers, fmt, r, c);
    if styled then Restyle(x, DataStyle(r - FirstDataRow)) else x
  }

  /** The sheet has cells in A1:B4 and in the table A6:Q{6+n}, nowhere else. */
  ghost predicate LayoutKeys(g: Grid, n: nat) {
    forall p: (nat, nat) :: p in g <==> InSummary(p) || InTable(p, n)
  }

  ghost predicate SummaryBoxAt(g: Grid, n: nat) {
    forall r: nat, c: nat :: InSummary((r, c)) ==> (r, c) in g && g[(r, c)] == SummaryCell(r, c, n)
  }

  ghost predicate HeaderAt(g: Grid, styled: bool) {
    forall c: nat :: c <= LastCol ==> (HeaderRow, c) in g && g[(HeaderRow, c)] == HeaderCell(c, styled)
  }

  /** The data rows hold the exported items; column G only `withRemaining`. */
  ghost predicate BodyAt(g: Grid, items: seq<LineItem>, suppliers: map<string, Supplier>, fmt: string -> string, styled: bool, withRemaining: bool) {
    forall r: nat, c: nat :: FirstDataRow <= r < FirstDataRow + |items| && c <= LastCol && (withRemaining || c != RemainingCol) ==>
      (r, c) in g && g[(r, c)] == BodyCell(items, suppliers, fmt, r, c, styled)
  }

  /** The cells of the export: the summary box, the header row and the data
      rows, and nothing else. */
  ghost predicate Layout(g: Grid, items: seq<LineItem>, suppliers: map<string, Supplier>, fmt: string -> string, styled: bool) {
    && LayoutKeys(g, |items|)
    && SummaryBoxAt(g, |items|)
    && HeaderAt(g, styled)
    && BodyAt(g, items, suppliers, fmt, styled, true)
  }

  /** The exported workbook. */
  ghost predicate ContainerLayout(
    wb: Workbook, container: string, date: string, items: seq<LineItem>,
    suppliers: map<string, Supplier>, fmt: string -> string, show: real -> string)
  {
    var n := |items|;
    && wb.fileName == container + "-" + date + ".xlsx"
    && wb.sheetName == "Container Items"
    && wb.sheet.lastRow == HeaderRow + n && wb.sheet.lastCol == LastCol
    && wb.sheet.merges == [] && wb.sheet.freezeRows == FrozenRows
    && Layout(wb.sheet.cells, items, suppliers, fmt, true)
    && |wb.sheet.cols| == LastCol + 1
    && (forall c :: 0 <= c <= LastCol ==> wb.sheet.cols[c] == ColumnWidth(wb.sheet.cells, c, HeaderRow + n, show) as real)
  }

  // ---------------------------------------------------------------------
  // The export

  function ExportRows(items: seq<LineItem>, suppliers: map<string, Supplier>, fmt: string -> string): (rows: seq<seq<Option<Value>>>)
    ensures |rows| == |items|
    ensures forall i :: 0 <= i < |items| ==> rows[i] == ExportRow(items[i], suppliers, fmt)
  {
    seq(|items|, i requires 0 <= i < |items| => ExportRow(items[i], suppliers, fmt))
  }

  /** The eight cells A1:B4 the export assigns after `json_to_sheet`. */
  function SummaryBox(n: nat): Grid {
    map r: nat, c: nat | r <= 3 && c <= 1 :: (r, c) := SummaryCell(r, c, n)
  }

  /** What `json_to_sheet` at A6 gives the exported rows. */
  ghost predicate JsonLaidOut(ws0: Grid, items: seq<LineItem>, suppliers: map<string, Supplier>, fmt: string -> string) {
    && (forall p: (nat, nat) :: p in ws0 <==> HeaderRow <= p.0 <= HeaderRow + |items| && p.1 < |Headers|)
    && (forall c :: 0 <= c < |Headers| ==> ws0[(HeaderRow, c)] == ValueCell(Text(Headers[c])))
    && (forall i, c :: 0 <= i < |items| && 0 <= c < |Headers| ==>
          ws0[(HeaderRow + 1 + i, c)] == JsonCell(ExportRows(items, suppliers, fmt)[i][c]))
  }

  lemma SummaryBoxKeys(ws0: Grid, items: seq<LineItem>, suppliers: map<string, Supplier>, fmt: string -> string)
    requires JsonLaidOut(ws0, items, suppliers, fmt)
    ensures LayoutKeys(ws0 + SummaryBox(|items|), |items|)
    ensures SummaryBoxAt(ws0 + SummaryBox(|items|), |items|)
  {
  }

  lemma JsonHeader(ws0: Grid, items: seq<LineItem>, suppliers: map<string, Supplier>, fmt: string -> string)
    requires |items| > 0
    requires JsonLaidOut(ws0, items, suppliers, fmt)
    ensures HeaderAt(ws0 + SummaryBox(|items|), false)
  {
    forall c: nat | c <= LastCol
      ensures (HeaderRow, c) in ws0 && ws0[(HeaderRow, c)] == HeaderCell(c, false)
    {
    }
  }

  lemma JsonBodyCell(ws0: Grid, items: seq<LineItem>, suppliers: map<string, Supplier>, fmt: string -> string, r: nat, c: nat)
    requires JsonLaidOut(ws0, items, suppliers, fmt)
    requires FirstDataRow <= r < FirstDataRow + |items| && c <= LastCol && c != RemainingCol
    ensures (r, c) in ws0 + SummaryBox(|items|)
    ensures (ws0 + SummaryBox(|items|))[(r, c)] == BodyCell(items, suppliers, fmt, r, c, false)
  {
    var i := r - FirstDataRow;
    var row := ExportRow(items[i], suppliers, fmt);
    assert ExportRows(items, suppliers, fmt)[i] == row;
    assert ws0[(HeaderRow + 1 + i, c)] == JsonCell(row[c]);
    assert BodyCell(items, suppliers, fmt, r, c, false) == JsonCell(row[c]);
    assert (r, c) !in SummaryBox(|items|);
  }

  lemma JsonBody(ws0: Grid, items: seq<LineItem>, suppliers: map<string, Supplier>, fmt: string -> string)
    requires JsonLaidOut(ws0, items, suppliers, fmt)
    ensures BodyAt(ws0 + SummaryBox(|items|), items, suppliers, fmt, false, false)
  {
    forall r: nat, c: nat | FirstDataRow <= r < FirstDataRow + |items| && c <= LastCol && c != RemainingCol
      ensures (r, c) in ws0 + SummaryBox(|items|)
      ensures (ws0 + SummaryBox(|items|))[(r, c)] == BodyCell(items, suppliers, fmt, r, c, false)
    {
      JsonBodyCell(ws0, items, suppliers, fmt, r, c);
    }
  }

  /** The Remaining pass: rows 7..6+n (1-based) of column G get the formula
      `E{R}-F{R}`; nothing else changes. */
  method WriteRemaining(ws: Grid, n: nat) returns (out: Grid)
    ensures forall p: (nat, nat) :: p in out <==> p in ws || (p.1 == RemainingCol && FirstDataRow <= p.0 < FirstDataRow + n)
    ensures forall r: nat :: FirstDataRow <= r < FirstDataRow + n ==> out[(r, RemainingCol)] == FormulaCell(RemainingFormula(r))
    ensures forall p: (nat, nat) :: p in ws && !(p.1 == RemainingCol && FirstDataRow <= p.0 < FirstDataRow + n) ==> out[p] == ws[p]
  {
    out := ws;
    var dataEndRow := FirstDataRow + n;
    var row := 7;
    while row <= dataEndRow
      invariant 7 <= row <= dataEndRow + 1
      invariant forall p: (nat, nat) :: p in out <==> p in ws || (p.1 == RemainingCol && FirstDataRow <= p.0 < row - 1)
      invariant forall r: nat :: FirstDataRow <= r < row - 1 ==> out[(r, RemainingCol)] == FormulaCell(RemainingFormula(r))
      invariant forall p: (nat, nat) :: p in ws && !(p.1 == RemainingCol && FirstDataRow <= p.0 < row - 1) ==> out[p] == ws[p]
    {
      out := out[(row - 1, RemainingCol) := FormulaCell(RemainingFormula(row - 1))];
      row := row + 1;
    }
  }

  ghost predicate RemainingWritten(ws1: Grid, ws2: Grid, n: nat) {
    && (forall p: (nat, nat) :: p in ws2 <==> p in ws1 || (p.1 == RemainingCol && FirstDataRow <= p.0 < FirstDataRow + n))
    && (forall r: nat :: FirstDataRow <= r < FirstDataRow + n ==> ws2[(r, RemainingCol)] == FormulaCell(RemainingFormula(r)))
    && (forall p: (nat, nat) :: p in ws1 && !(p.1 == RemainingCol && FirstDataRow <= p.0 < FirstDataRow + n) ==> ws2[p] == ws1[p])
  }

  lemma RemainingPass(ws1: Grid, ws2: Grid, items: seq<LineItem>, suppliers: map<string, Supplier>, fmt: string -> string)
    requires LayoutKeys(ws1, |items|) && SummaryBoxAt(ws1, |items|) && HeaderAt(ws1, false)
    requires BodyAt(ws1, items, suppliers, fmt, false, false)
    requires RemainingWritten(ws1, ws2, |items|)
    ensures Layout(ws2, items, suppliers, fmt, false)
  {
  }

  ghost predicate HeaderStyled(ws2: Grid, ws3: Grid) {
    && ws3.Keys == ws2.Keys
    && (forall p: (nat, nat) :: p in ws2 && InBlock(p, HeaderRow, HeaderRow, LastCol) ==> ws3[p] == Restyle(ws2[p], HeaderStyle))
    && (forall p: (nat, nat) :: p in ws2 && !InBlock(p, HeaderRow, HeaderRow, LastCol) ==> ws3[p] == ws2[p])
  }

  lemma HeaderPass(ws2: Grid, ws3: Grid, items: seq<LineItem>, suppliers: map<string, Supplier>, fmt: string -> string)
    requires Layout(ws2, items, suppliers, fmt, false)
    requires HeaderStyled(ws2, ws3)
    ensures LayoutKeys(ws3, |items|) && SummaryBoxAt(ws3, |items|) && HeaderAt(ws3, true)
    ensures BodyAt(ws3, items, suppliers, fmt, false, true)
  {
  }

  ghost predicate Banding(ws3: Grid, ws4: Grid, n: nat) {
    && (forall p: (nat, nat) :: p in ws3 ==> p in ws4)
    && (forall p: (nat, nat) :: InBlock(p, FirstDataRow, HeaderRow + n, LastCol) ==>
          p in ws4 && ws4[p] == Banded(ws3, p, FirstDataRow, BandStyle(LightBlue), BandStyle(White), BlankCell))
    && (forall p: (nat, nat) :: p in ws4 && !InBlock(p, FirstDataRow, HeaderRow + n, LastCol) ==> p in ws3 && ws4[p] == ws3[p])
  }

  lemma BandPass(ws3: Grid, ws4: Grid, items: seq<LineItem>, suppliers: map<string, Supplier>, fmt: string -> string)
    requires LayoutKeys(ws3, |items|) && SummaryBoxAt(ws3, |items|) && HeaderAt(ws3, true)
    requires BodyAt(ws3, items, suppliers, fmt, false, true)
    requires Banding(ws3, ws4, |items|)
    ensures Layout(ws4, items, suppliers, fmt, true)
    ensures forall p: (nat, nat) :: p in ws4 ==> p in ws3 && ws4[p].v == ws3[p].v
  {
    var n := |items|;
    forall p: (nat, nat) | InBlock(p, FirstDataRow, HeaderRow + n, LastCol)
      ensures p in ws3
    {
      assert InTable(p, n);
    }
    forall r: nat, c: nat | FirstDataRow <= r < FirstDataRow + n && c <= LastCol
      ensures (r, c) in ws4 && ws4[(r, c)] == BodyCell(items, suppliers, fmt, r, c, true)
    {
      BandedBodyCell(ws3, ws4, items, suppliers, fmt, r, c);
    }
  }

  lemma BandedBodyCell(ws3: Grid, ws4: Grid, items: seq<LineItem>, suppliers: map<string, Supplier>, fmt: string -> string, r: nat, c: nat)
    requires FirstDataRow <= r < FirstDataRow + |items| && c <= LastCol
    requires (r, c) in ws3 && ws3[(r, c)] == BodyCell(items, suppliers, fmt, r, c, false)
    requires (r, c) in ws4 && ws4[(r, c)] == Banded(ws3, (r, c), FirstDataRow, BandStyle(LightBlue), BandStyle(White), BlankCell)
    ensures ws4[(r, c)] == BodyCell(items, suppliers, fmt, r, c, true)
  {
  }

  /** The export button: fetch every item of the container (ordered by
      reference code), give up on an error or an empty result, otherwise
      build the workbook `{container}-{date}.xlsx`. */
  method ExportContainer(
    container: string, date: string, fetched: Fetch<LineItem>,
    suppliers: map<string, Supplier>, fmt: string -> string, show: real -> string)
    returns (wb: Option<Workbook>)
    ensures wb.None? <==> fetched.FetchError? || |fetched.rows| == 0
    ensures wb.Some? ==> ContainerLayout(wb.value, container, date, fetched.rows, suppliers, fmt, show)
  {
    if fetched.FetchError? || |fetched.rows| == 0 {
      return None;
    }
    var items := fetched.rows;
    var n := |items|;
    var ws2 := FillSheet(items, suppliers, fmt);
    var widths := AutoWidths(ws2, HeaderRow + n, LastCol, show);
    var ws4 := StyleSheet(ws2, items, suppliers, fmt);
    forall c | 0 <= c <= LastCol
      ensures widths[c] == ColumnWidth(ws4, c, HeaderRow + n, show) as real
    {
      WidthsAgree(ws2, ws4, c, HeaderRow + n + 1, show);
    }
    wb := Some(Workbook(container + "-" + date + ".xlsx", "Container Items",
                        Worksheet(ws4, HeaderRow + n, LastCol, widths, [], FrozenRows)));
  }

  /** The rows at A6, the summary box at A1:B4 and the Remaining formulas,
      before any styling. */
  method FillSheet(items: seq<LineItem>, suppliers: map<string, Supplier>, fmt: string -> string)
    returns (ws2: Grid)
    requires |items| > 0
    ensures Layout(ws2, items, suppliers, fmt, false)
  {
    var n := |items|;
    var ws0 := JsonToSheet(Headers, ExportRows(items, suppliers, fmt), HeaderRow);
    assert JsonLaidOut(ws0, items, suppliers, fmt);
    var ws1 := ws0 + SummaryBox(n);
    SummaryBoxKeys(ws0, items, suppliers, fmt);
    JsonHeader(ws0, items, suppliers, fmt);
    JsonBody(ws0, items, suppliers, fmt);
    ws2 := WriteRemaining(ws1, n);
    RemainingPass(ws1, ws2, items, suppliers, fmt);
  }

  /** The header row bold on grey, then the data rows banded; no value
      changes. */
  method StyleSheet(ws2: Grid, items: seq<LineItem>, suppliers: map<string, Supplier>, fmt: string -> string)
    returns (ws4: Grid)
    requires Layout(ws2, items, suppliers, fmt, false)
    ensures Layout(ws4, items, suppliers, fmt, true)
    ensures forall p: (nat, nat) :: p in ws4 <==> p in ws2
    ensures forall p: (nat, nat) :: p in ws4 ==> ws4[p].v == ws2[p].v
  {
    var n := |items|;
    var ws3 := StyleExisting(ws2, HeaderRow, HeaderRow, LastCol, HeaderStyle);
    HeaderPass(ws2, ws3, items, suppliers, fmt);
    ws4 := Band(ws3, FirstDataRow, HeaderRow + n, LastCol, BandStyle(LightBlue), BandStyle(White), BlankCell);
    BandPass(ws3, ws4, items, suppliers, fmt);
  }

  // ---------------------------------------------------------------------
  // What the summary box computes

  /** Summing a data column adds up one field of the items, row by row. */
  lemma {:induction false} ColumnTotal(
    g: Grid, env: (nat, nat) -> real, c: nat, items: seq<LineItem>, field: LineItem -> real, k: nat)
    requires k <= |items|
    requires forall i :: 0 <= i < |items| ==> SumTerm(g, env, FirstDataRow + i, c) == field(items[i])
    ensures SumColumn(g, env, c, FirstDataRow, FirstDataRow + k - 1) == Total(items[..k], field)
  {
    if k > 0 {
      ColumnTotal(g, env, c, items, field, k - 1);
      assert items[..k][..k - 1] == items[..k - 1];
    }
  }

  /** The SUMIF over the status column adds up the CBM of the ready items. */
  lemma {:induction false} ReadyColumnTotal(g: Grid, env: (nat, nat) -> real, items: seq<LineItem>, k: nat)
    requires k <= |items|
    requires forall i :: 0 <= i < |items| ==> SumTerm(g, env, FirstDataRow + i, CbmCol) == Cbm(items[i])
    requires forall i :: 0 <= i < |items| ==>
      ((FirstDataRow + i, StatusCol) in g && g[(FirstDataRow + i, StatusCol)].v == Some(Text(ReadyToShip))) == IsReady(items[i])
    ensures SumIfColumn(g, env, DataColumn(StatusCol, |items|), ReadyToShip, DataColumn(CbmCol, |items|), k - 1)
      == Total(Filter(items[..k], IsReady), Cbm)
  {
    if k > 0 {
      ReadyColumnTotal(g, env, items, k - 1);
      var prefix, last := items[..k - 1], items[k - 1];
      assert items[..k] == prefix + [last];
      assert (prefix + [last])[..k - 1] == prefix;
      if IsReady(last) {
        TotalSnoc(Filter(prefix, IsReady), last, Cbm);
      }
      ReadyRowStep(g, env, items, k);
    }
  }

  /** One more data row adds its CBM to the SUMIF exactly when it is ready. */
  lemma ReadyRowStep(g: Grid, env: (nat, nat) -> real, items: seq<LineItem>, k: nat)
    requires 0 < k <= |items|
    requires SumTerm(g, env, FirstDataRow + k - 1, CbmCol) == Cbm(items[k - 1])
    requires ((FirstDataRow + k - 1, StatusCol) in g && g[(FirstDataRow + k - 1, StatusCol)].v == Some(Text(ReadyToShip))) == IsReady(items[k - 1])
    ensures SumIfColumn(g, env, DataColumn(StatusCol, |items|), ReadyToShip, DataColumn(CbmCol, |items|), k - 1)
      == SumIfColumn(g, env, DataColumn(StatusCol, |items|), ReadyToShip, DataColumn(CbmCol, |items|), k - 2)
         + (if IsReady(items[k - 1]) then Cbm(items[k - 1]) else 0.0)
  {
  }

  /** What a consistent valuation gives one data row: its CBM, its product
      cost, its balance (through the Remaining formula), and whether its
      status cell passes the SUMIF test. */
  lemma RowTerms(g: Grid, env: (nat, nat) -> real, items: seq<LineItem>,
                 suppliers: map<string, Supplier>, fmt: string -> string, i: nat)
    requires i < |items|
    requires LayoutKeys(g, |items|) && BodyAt(g, items, suppliers, fmt, true, true)
    requires Consistent(g, env)
    ensures SumTerm(g, env, FirstDataRow + i, CbmCol) == Cbm(items[i])
    ensures SumTerm(g, env, FirstDataRow + i, CostCol) == Cost(items[i])
    ensures SumTerm(g, env, FirstDataRow + i, RemainingCol) == Balance(items[i])
    ensures ((FirstDataRow + i, StatusCol) in g && g[(FirstDataRow + i, StatusCol)].v == Some(Text(ReadyToShip))) == IsReady(items[i])
  {
    var r := FirstDataRow + i;
    var item := items[i];
    assert g[(r, CbmCol)] == BodyCell(items, suppliers, fmt, r, CbmCol, true);
    assert g[(r, CostCol)] == BodyCell(items, suppliers, fmt, r, CostCol, true);
    assert g[(r, PaymentCol)] == BodyCell(items, suppliers, fmt, r, PaymentCol, true);
    assert g[(r, StatusCol)] == BodyCell(items, suppliers, fmt, r, StatusCol, true);
    assert g[(r, RemainingCol)] == BodyCell(items, suppliers, fmt, r, RemainingCol, true);
    assert CellAgrees(g, env, r, CbmCol);
    assert CellAgrees(g, env, r, CostCol);
    assert CellAgrees(g, env, r, PaymentCol);
    assert env(r, CostCol) == Cost(item) && env(r, PaymentCol) == Paid(item);
    assert Eval(RemainingFormula(r), g, env) == Some(env(r, CostCol) - env(r, PaymentCol));
    assert CellAgrees(g, env, r, RemainingCol);
  }

  /** The per-row facts the four summary formulas add up. */
  ghost predicate RowFacts(g: Grid, env: (nat, nat) -> real, items: seq<LineItem>) {
    forall i :: 0 <= i < |items| ==>
      && SumTerm(g, env, FirstDataRow + i, CbmCol) == Cbm(items[i])
      && SumTerm(g, env, FirstDataRow + i, CostCol) == Cost(items[i])
      && SumTerm(g, env, FirstDataRow + i, RemainingCol) == Balance(items[i])
      && ((FirstDataRow + i, StatusCol) in g && g[(FirstDataRow + i, StatusCol)].v == Some(Text(ReadyToShip))) == IsReady(items[i])
  }

  /** The value a consistent valuation gives a summary formula cell. */
  lemma BoxValue(g: Grid, env: (nat, nat) -> real, n: nat, r: nat)
    requires r <= 3 && SummaryBoxAt(g, n) && Consistent(g, env)
    ensures Eval(SummaryCell(r, 1, n).f.value, g, env) == Some(env(r, 1))
  {
    assert CellAgrees(g, env, r, 1);
  }

  /** The frozen rows are exactly the rows above the header (0-based rows
      below `HeaderRow`): the summary box and the blank row under it.  The
      header itself, on row 6, is not frozen and scrolls away with the
      data; every frozen cell is in A1:B4. */
  lemma FrozenRowsAreAboveHeader(
    wb: Workbook, container: string, date: string, items: seq<LineItem>,
    suppliers: map<string, Supplier>, fmt: string -> string, show: real -> string)
    requires ContainerLayout(wb, container, date, items, suppliers, fmt, show)
    ensures wb.sheet.freezeRows == HeaderRow && FirstDataRow == HeaderRow + 1
    ensures forall r: nat, c: nat :: (r, c) in wb.sheet.cells && r < wb.sheet.freezeRows ==> r <= 3 && c <= 1
  {
  }

  /** Whatever values a spreadsheet gives the cells, consistently with their
      contents and formulas, B1..B4 show the page's Total CBM, Total Product
      Cost, CBM Ready to Ship and Remaining to Pay over the exported items. */
  lemma SummaryAgreesWithStats(
    wb: Workbook, container: string, date: string, items: seq<LineItem>,
    suppliers: map<string, Supplier>, fmt: string -> string, show: real -> string,
    env: (nat, nat) -> real)
    requires |items| > 0
    requires ContainerLayout(wb, container, date, items, suppliers, fmt, show)
    requires Consistent(wb.sheet.cells, env)
    ensures env(0, 1) == Stats(items).totalCBM
    ensures env(1, 1) == Stats(items).totalCost
    ensures env(2, 1) == Stats(items).cbmReadyToShip
    ensures env(3, 1) == Stats(items).remainingToPay
  {
    var g, n := wb.sheet.cells, |items|;
    forall i | 0 <= i < n
      ensures SumTerm(g, env, FirstDataRow + i, CbmCol) == Cbm(items[i])
      ensures SumTerm(g, env, FirstDataRow + i, CostCol) == Cost(items[i])
      ensures SumTerm(g, env, FirstDataRow + i, RemainingCol) == Balance(items[i])
      ensures ((FirstDataRow + i, StatusCol) in g && g[(FirstDataRow + i, StatusCol)].v == Some(Text(ReadyToShip))) == IsReady(items[i])
    {
      RowTerms(g, env, items, suppliers, fmt, i);
    }
    SummaryFigures(g, env, items);
  }

  lemma SummaryFigures(g: Grid, env: (nat, nat) -> real, items: seq<LineItem>)
    requires |items| > 0 && SummaryBoxAt(g, |items|) && Consistent(g, env)
    requires RowFacts(g, env, items)
    ensures env(0, 1) == Stats(items).totalCBM
    ensures env(1, 1) == Stats(items).totalCost
    ensures env(2, 1) == Stats(items).cbmReadyToShip
    ensures env(3, 1) == Stats(items).remainingToPay
  {
    var n := |items|;
    assert items[..n] == items;
    BoxValue(g, env, n, 0);
    BoxValue(g, env, n, 1);
    BoxValue(g, env, n, 2);
    BoxValue(g, env, n, 3);
    ColumnTotal(g, env, CbmCol, items, Cbm, n);
    ColumnTotal(g, env, CostCol, items, Cost, n);
    ColumnTotal(g, env, RemainingCol, items, Balance, n);
    ReadyColumnTotal(g, env, items, n);
    RemainingIsSumOfBalances(items);
  }

  // ---------------------------------------------------------------------
  // A consistent valuation exists

  /** The page's figure that summary row `r` stands for. */
  function BoxFigure(items: seq<LineItem>, r: nat): real {
    if r == 0 then Stats(items).totalCBM
    else if r == 1 then Stats(items).totalCost
    else if r == 2 then Stats(items).cbmReadyToShip
    else Stats(items).remainingToPay
  }

  /** A valuation of an exported sheet: B1..B4 the page's figures, each
      Remaining cell its row's balance, every other cell what it shows. */
  function ValueAt(g: Grid, items: seq<LineItem>, r: nat, c: nat): real {
    if (r, c) !in g then 0.0
    else if r <= 3 && c == 1 then BoxFigure(items, r)
    else if FirstDataRow <= r < FirstDataRow + |items| && c == RemainingCol then Balance(items[r - FirstDataRow])
    else Shown(g[(r, c)])
  }

  function ExportValuation(g: Grid, items: seq<LineItem>): (env: (nat, nat) -> real)
    ensures forall r: nat, c: nat :: env(r, c) == ValueAt(g, items, r, c)
  {
    (r: nat, c: nat) => ValueAt(g, items, r, c)
  }

  /** A data cell outside column G: no formula, valued at what it shows. */
  lemma DataValueCell(g: Grid, items: seq<LineItem>, suppliers: map<string, Supplier>, fmt: string -> string, i: nat, c: nat)
    requires i < |items| && c <= LastCol && c != RemainingCol
    requires BodyAt(g, items, suppliers, fmt, true, true)
    ensures (FirstDataRow + i, c) in g
    ensures g[(FirstDataRow + i, c)].v == ExportRow(items[i], suppliers, fmt)[c] && g[(FirstDataRow + i, c)].f.None?
    ensures CellAgrees(g, ExportValuation(g, items), FirstDataRow + i, c)
  {
    var r := FirstDataRow + i;
    assert g[(r, c)] == BodyCell(items, suppliers, fmt, r, c, true);
    ShownCellAgrees(g, ExportValuation(g, items), r, c);
  }

  /** A Remaining cell: its formula computes the row's balance. */
  lemma RemainingCellAgrees(g: Grid, items: seq<LineItem>, suppliers: map<string, Supplier>, fmt: string -> string, i: nat)
    requires i < |items|
    requires BodyAt(g, items, suppliers, fmt, true, true)
    ensures (FirstDataRow + i, RemainingCol) in g
    ensures CellAgrees(g, ExportValuation(g, items), FirstDataRow + i, RemainingCol)
  {
    var env, r := ExportValuation(g, items), FirstDataRow + i;
    DataValueCell(g, items, suppliers, fmt, i, CostCol);
    DataValueCell(g, items, suppliers, fmt, i, PaymentCol);
    assert env(r, CostCol) == Cost(items[i]);
    assert env(r, PaymentCol) == Paid(items[i]);
    assert g[(r, RemainingCol)] == BodyCell(items, suppliers, fmt, r, RemainingCol, true);
    assert Eval(RemainingFormula(r), g, env) == Some(env(r, RemainingCol));
  }

  /** Every cell of row `r` in columns A..Q exists and agrees with `env`. */
  ghost predicate RowAgrees(g: Grid, env: (nat, nat) -> real, r: nat) {
    forall c: nat {:trigger CellAgrees(g, env, r, c)} :: c <= LastCol ==> (r, c) in g && CellAgrees(g, env, r, c)
  }

  /** Every cell of a data row agrees with the valuation. */
  lemma ExportValuationRow(g: Grid, items: seq<LineItem>, suppliers: map<string, Supplier>, fmt: string -> string, r: nat)
    requires FirstDataRow <= r < FirstDataRow + |items|
    requires BodyAt(g, items, suppliers, fmt, true, true)
    ensures RowAgrees(g, ExportValuation(g, items), r)
  {
    var env, i := ExportValuation(g, items), r - FirstDataRow;
    forall c: nat | c <= LastCol
      ensures (r, c) in g && CellAgrees(g, env, r, c)
    {
      if c == RemainingCol {
        RemainingCellAgrees(g, items, suppliers, fmt, i);
      } else {
        DataValueCell(g, items, suppliers, fmt, i, c);
      }
    }
  }

  /** Under the valuation each data row contributes its CBM, cost, balance
      and status to the summary formulas. */
  lemma ExportValuationRowFacts(g: Grid, items: seq<LineItem>, suppliers: map<string, Supplier>, fmt: string -> string)
    requires BodyAt(g, items, suppliers, fmt, true, true)
    ensures RowFacts(g, ExportValuation(g, items), items)
  {
    var env := ExportValuation(g, items);
    forall i | 0 <= i < |items|
      ensures SumTerm(g, env, FirstDataRow + i, CbmCol) == Cbm(items[i])
      ensures SumTerm(g, env, FirstDataRow + i, CostCol) == Cost(items[i])
      ensures SumTerm(g, env, FirstDataRow + i, RemainingCol) == Balance(items[i])
      ensures ((FirstDataRow + i, StatusCol) in g && g[(FirstDataRow + i, StatusCol)].v == Some(Text(ReadyToShip))) == IsReady(items[i])
    {
      DataValueCell(g, items, suppliers, fmt, i, CbmCol);
      DataValueCell(g, items, suppliers, fmt, i, CostCol);
      DataValueCell(g, items, suppliers, fmt, i, StatusCol);
      RemainingCellAgrees(g, items, suppliers, fmt, i);
      assert g[(FirstDataRow + i, RemainingCol)] == BodyCell(items, suppliers, fmt, FirstDataRow + i, RemainingCol, true);
    }
  }

  /** Each summary formula computes its page figure under the valuation. */
  lemma ExportValuationBox(g: Grid, items: seq<LineItem>, r: nat)
    requires |items| > 0 && r <= 3
    requires SummaryBoxAt(g, |items|) && RowFacts(g, ExportValuation(g, items), items)
    ensures CellAgrees(g, ExportValuation(g, items), r, 1)
  {
    var env, n := ExportValuation(g, items), |items|;
    assert items[..n] == items;
    assert g[(r, 1)] == SummaryCell(r, 1, n);
    if r == 0 {
      ColumnSum(g, env, CbmCol, n);
      ColumnTotal(g, env, CbmCol, items, Cbm, n);
      assert env(0, 1) == Stats(items).totalCBM;
    } else if r == 1 {
      ColumnSum(g, env, CostCol, n);
      ColumnTotal(g, env, CostCol, items, Cost, n);
      assert env(1, 1) == Stats(items).totalCost;
    } else if r == 2 {
      ReadyColumnTotal(g, env, items, n);
      assert env(2, 1) == Stats(items).cbmReadyToShip;
    } else {
      ColumnSum(g, env, RemainingCol, n);
      ColumnTotal(g, env, RemainingCol, items, Balance, n);
      RemainingIsSumOfBalances(items);
      assert env(3, 1) == Stats(items).remainingToPay;
    }
  }

  /** A SUM over one data column is the sum of that column's rows. */
  lemma ColumnSum(g: Grid, env: (nat, nat) -> real, c: nat, n: nat)
    requires n > 0
    ensures Eval(SumOf(DataColumn(c, n)), g, env) == Some(SumColumn(g, env, c, FirstDataRow, FirstDataRow + n - 1))
  {
    var a := DataColumn(c, n);
    assert SumColumns(g, env, a, a.right - 1) == 0.0;
  }

  /** Every exported container sheet has a consistent valuation, the one
      above, so the premise of `SummaryAgreesWithStats` can be met. */
  lemma ExportValuationConsistent(
    wb: Workbook, container: string, date: string, items: seq<LineItem>,
    suppliers: map<string, Supplier>, fmt: string -> string, show: real -> string)
    requires |items| > 0
    requires ContainerLayout(wb, container, date, items, suppliers, fmt, show)
    ensures Consistent(wb.sheet.cells, ExportValuation(wb.sheet.cells, items))
  {
    var g, n := wb.sheet.cells, |items|;
    var env := ExportValuation(g, items);
    ExportValuationRowFacts(g, items, suppliers, fmt);
    forall r: nat, c: nat | (r, c) in g
      ensures CellAgrees(g, env, r, c)
    {
      if InSummary((r, c)) {
        if c == 1 {
          ExportValuationBox(g, items, r);
        } else {
          assert g[(r, c)] == SummaryCell(r, c, n);
        }
      } else if r == HeaderRow {
        assert g[(r, c)] == HeaderCell(c, true);
      } else {
        ExportValuationRow(g, items, suppliers, fmt, r);
      }
    }
  }
}
