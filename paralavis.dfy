/** The pricing sheet ("ENTYPO PARALAVIS") export: a fixed three-row header
    with 32 merged areas, one row of 37 cells per record from sheet row 4 on,
    where columns W..AF and AH, AI, AK hold the pricing formulas, then the
    header restyled, the data rows banded and fixed column widths; and the
    number a newly added row receives. */
module Paralavis {
  import opened Common
  import opened Records
  import opened Sheet

  const Width: nat := 37
  const LastCol: nat := 36
  /** 0-based sheet row of the first record (row 4 in A1 terms). */
  const FirstDataRow: nat := 3
  /** 0-based row of the multiplier header cells AC3..AG3. */
  const MultiplierRow: nat := 2

  // Columns, 0-based.
  const ColF: nat := 5
  const ColN: nat := 13
  const ColT: nat := 19
  const ColU: nat := 20
  const ColV: nat := 21
  const ColW: nat := 22
  const ColX: nat := 23
  const ColY: nat := 24
  const ColZ: nat := 25
  const ColAA: nat := 26
  const ColAB: nat := 27
  const ColAC: nat := 28
  const ColAF: nat := 31
  const ColAG: nat := 32
  const ColAH: nat := 33
  const ColAI: nat := 34
  const ColAJ: nat := 35
  const ColAK: nat := 36

  // ---------------------------------------------------------------------
  // The fixed header

  /** Row 1 has a title only at the start of each merged section; the cells
      under the rest of a section (C1, D1, E1, L1..O1, U1, V1, AD1..AF1,
      AH1..AK1) are never written. */
  predicate IsTitleColumn(c: nat) {
    c <= 1 || 5 <= c <= 10 || 15 <= c <= 19 || 22 <= c <= 28 || c == 32
  }

  function TitleText(c: nat): string
    requires IsTitleColumn(c)
  {
    match c
    case 0 => "No."
    case 1 => "SUPPLIER"
    case 5 => "QTY (meters)"
    case 6 => "R"
    case 7 => "REMARKS PARALAVI"
    case 8 => "REMARKS"
    case 9 => "PICTURE ITEMS"
    case 10 => "AROMA"
    case 15 => "PHOTOGRAPHY"
    case 16 => "L"
    case 17 => "W"
    case 18 => "H"
    case 19 => "Unit Price"
    case 22 => "TOTAL"
    case 23 => "TRANSPORT"
    case 24 => "LANDED COST"
    case 25 => "LANDED COST Q"
    case 26 => "VAT"
    case 27 => "LANDED WITH VAT"
    case 28 => "PRICE TENTATIVE"
    case _ => "AROMA PRICE"
  }

  /** Row 2: a sub-header, possibly empty, in every column. */
  function SubtitleText(c: nat): string {
    match c
    case 1 => "Description of Goods"
    case 2 => "Material"
    case 3 => "Color"
    case 4 => "SUPPLIER\nCODE"
    case 10 => "AROMA\nCODE"
    case 11 => "AROMA\nDescription"
    case 12 => "CLIENT"
    case 13 => "PRICE\nEXISTING"
    case 14 => "NEW\nPRICE"
    case 19 => "$"
    case 20 => "Ship to\nForwarder"
    case 21 => "1.09"
    case 28 => "2"
    case 29 => "2.5"
    case 30 => "3"
    case 31 => "3.5"
    case 32 => "PRICE\nWITH\nVAT"
    case 33 => "EXISTING\nPRICE"
    case 34 => "GROSS PRICE\n\U{03A7}\U{03A9}\U{03A1}\U{0399}\U{03A3} \U{03A6}\U{03A0}\U{0391}"
    case 35 => "PROPOSAL"
    case 36 => "PROFIT\nMARGIN 1"
    case _ => ""
  }

  /** Row 3: empty in every column except the multipliers AC3..AG3 that the
      price formulas read. */
  function MultiplierText(c: nat): string {
    match c
    case 28 => "2"
    case 29 => "2.5"
    case 30 => "3"
    case 31 => "3.5"
    case 32 => "4.5"
    case _ => ""
  }

  /** `{ v: text, t: 's' }`. */
  function TextCell(s: string): (cell: Cell)
    ensures cell.v == Some(Text(s)) && cell.f.None? && cell.t == Some(S)
  {
    ValueCell(Text(s))
  }

  /** The header cells: the titles of row 1 and every column of rows 2 and 3. */
  predicate InHeader(p: (nat, nat)) {
    (p.0 == 0 && IsTitleColumn(p.1)) || (1 <= p.0 <= 2 && p.1 < Width)
  }

  function HeaderText(p: (nat, nat)): string
    requires InHeader(p)
  {
    if p.0 == 0 then TitleText(p.1)
    else if p.0 == 1 then SubtitleText(p.1)
    else MultiplierText(p.1)
  }

  /** The header assignments, column by column: nothing but the header
      cells, each a text cell with its label. */
  method WriteHeader() returns (ws: Grid)
    ensures forall p: (nat, nat) :: p in ws <==> InHeader(p)
    ensures forall p: (nat, nat) :: InHeader(p) ==> ws[p] == TextCell(HeaderText(p))
  {
    ws := map[];
    for c := 0 to Width
      invariant forall p: (nat, nat) :: p in ws <==> InHeader(p) && p.1 < c
      invariant forall p: (nat, nat) :: p in ws ==> ws[p] == TextCell(HeaderText(p))
    {
      if IsTitleColumn(c) {
        ws := ws[(0, c) := TextCell(TitleText(c))];
      }
      ws := ws[(1, c) := TextCell(SubtitleText(c))][(2, c) := TextCell(MultiplierText(c))];
    }
  }

  /** The merged areas: 32 of them, all inside the header rows. */
  const Merges: seq<Area> := [
    Area(0, 0, 2, 0), Area(0, 1, 0, 4), Area(1, 1, 2, 1), Area(1, 2, 2, 2), Area(1, 3, 2, 3),
    Area(0, 5, 2, 5), Area(0, 6, 2, 6), Area(0, 7, 2, 7), Area(0, 8, 2, 8), Area(0, 9, 2, 9),
    Area(0, 10, 0, 14), Area(1, 10, 2, 10), Area(1, 11, 2, 11), Area(1, 12, 2, 12), Area(1, 13, 2, 13),
    Area(1, 14, 2, 14), Area(0, 15, 2, 15), Area(0, 16, 2, 16), Area(0, 17, 2, 17), Area(0, 18, 2, 18),
    Area(0, 19, 0, 22), Area(1, 19, 2, 19), Area(1, 20, 2, 20), Area(1, 21, 2, 21), Area(0, 22, 2, 22),
    Area(0, 23, 2, 23), Area(0, 24, 2, 24), Area(0, 25, 2, 25), Area(0, 26, 2, 26), Area(0, 27, 2, 27),
    Area(0, 28, 0, 31), Area(0, 32, 0, 36)]

  /** There are 32 well-formed merges, all within rows 1..3 and columns
      A..AK; two of them, T1:W1 and W1:W3, share the cell W1, so the list is
      not a partition of the header. */
  lemma MergesInHeader()
    ensures |Merges| == 32
    ensures forall i :: 0 <= i < |Merges| ==>
      Merges[i].top <= Merges[i].bottom <= 2 && Merges[i].left <= Merges[i].right <= LastCol
    ensures (0, ColW) in AreaCells(Merges[20]) && (0, ColW) in AreaCells(Merges[24])
    ensures AreaText(Merges[20]) == "T1:W1" && AreaText(Merges[24]) == "W1:W3"
  {
    assert ColName(19) == "T" && ColName(22) == "W";
    assert NatStr(1) == "1" && NatStr(3) == "3";
  }

  /** The fixed column widths, A..AK. */
  const Widths: seq<real> := [
    4.67, 30.17, 8.0, 11.67, 10.0, 8.0, 6.0, 15.0, 15.0, 12.0, 10.0, 20.0, 12.0, 10.0, 10.0, 12.0,
    6.0, 6.0, 6.0, 8.0, 10.0, 6.0, 10.0, 10.0, 12.0, 12.0, 10.0, 12.0, 10.0, 10.0, 10.0, 10.0,
    10.0, 12.0, 12.0, 10.0, 12.0]

  // ---------------------------------------------------------------------
  // One record's row

  predicate IsFormulaColumn(c: nat) {
    ColW <= c <= ColAF || c == ColAH || c == ColAI || c == ColAK
  }

  /** The formula of column `c` on 0-based row `r`. */
  function Formula(r: nat, c: nat): Expr
    requires IsFormulaColumn(c)
  {
    if c == ColW then Mul(Ref(r, ColT), Ref(r, ColU))
    else if c == ColX then Mul(Hundredths(47), Ref(r, ColF))
    else if c == ColY then Add(Ref(r, ColW), Ref(r, ColX))
    else if c == ColZ then Mul(Ref(r, ColY), Ref(r, ColF))
    else if c == ColAA then Mul(Ref(r, ColZ), Hundredths(24))
    else if c == ColAB then Add(Ref(r, ColZ), Ref(r, ColAA))
    else if c <= ColAF then Mul(Ref(r, ColAB), Ref(MultiplierRow, c))
    else if c == ColAH then Mul(Ref(r, ColN), Ref(MultiplierRow, ColAG))
    else if c == ColAI then Div(Ref(r, ColAH), Hundredths(124))
    else Div(Paren(Sub(Ref(r, ColAJ), Ref(r, ColAI))), Ref(r, ColAI))
  }

  /** Every formula of a data row reads cells of its own row to its left, or
      the multipliers of header row 3; the four price columns read AB of
      their row times their own column's multiplier, and AH reads N times AG3.
      So a row is computed left to right and rows do not depend on each
      other. */
  lemma FormulaReferences(r: nat, c: nat)
    requires r >= FirstDataRow && IsFormulaColumn(c)
    ensures forall p :: p in Refs(Formula(r, c)) ==>
      (p.0 == r && p.1 < c) || (p.0 == MultiplierRow && ColAC <= p.1 <= ColAG)
    ensures ColAC <= c <= ColAF ==> Refs(Formula(r, c)) == {(r, ColAB), (MultiplierRow, c)}
    ensures c == ColAH ==> Refs(Formula(r, c)) == {(r, ColN), (MultiplierRow, ColAG)}
  {
    if c == ColAK {
      var diff := Sub(Ref(r, ColAJ), Ref(r, ColAI));
      assert Refs(Ref(r, ColAJ)) == {(r, ColAJ)} && Refs(Ref(r, ColAI)) == {(r, ColAI)};
      assert Refs(diff) == {(r, ColAJ), (r, ColAI)};
      assert Refs(Paren(diff)) == {(r, ColAJ), (r, ColAI)};
      assert Formula(r, c) == Div(Paren(diff), Ref(r, ColAI));
    } else if c == ColAI {
      assert Refs(Formula(r, c)) == {(r, ColAH)};
    } else if c == ColX {
      assert Refs(Formula(r, c)) == {(r, ColF)};
    } else if c == ColAA {
      assert Refs(Formula(r, c)) == {(r, ColZ)};
    }
  }

  /** The text of the cost cascade, W..AB, for 1-based row R = r + 1. */
  lemma CascadeTexts(r: nat)
    ensures var R := NatStr(r + 1);
      && Render(Formula(r, ColW)) == "T" + R + "*U" + R
      && Render(Formula(r, ColX)) == "0.47*F" + R
      && Render(Formula(r, ColY)) == "W" + R + "+X" + R
      && Render(Formula(r, ColZ)) == "Y" + R + "*F" + R
      && Render(Formula(r, ColAA)) == "Z" + R + "*0.24"
      && Render(Formula(r, ColAB)) == "Z" + R + "+AA" + R
  {
    assert ColName(ColT) == "T" && ColName(ColU) == "U" && ColName(ColF) == "F";
    assert ColName(ColW) == "W" && ColName(ColX) == "X" && ColName(ColY) == "Y" && ColName(ColZ) == "Z";
    assert ColName(ColAA) == "AA";
    assert HundredthsText(47) == "0.47" && HundredthsText(24) == "0.24";
  }

  /** The text of the price formulas AC..AF: AB of the row times the
      multiplier in row 3 of the column. */
  lemma MultiplierTexts(r: nat)
    ensures var R := NatStr(r + 1);
      && Render(Formula(r, ColAC)) == "AB" + R + "*AC3"
      && Render(Formula(r, ColAC + 1)) == "AB" + R + "*AD3"
      && Render(Formula(r, ColAC + 2)) == "AB" + R + "*AE3"
      && Render(Formula(r, ColAF)) == "AB" + R + "*AF3"
  {
    assert ColName(ColAB) == "AB" && ColName(ColAC) == "AC" && ColName(ColAC + 1) == "AD";
    assert ColName(ColAC + 2) == "AE" && ColName(ColAF) == "AF";
    assert NatStr(MultiplierRow + 1) == "3";
  }

  /** The text of the aroma price formulas AH, AI and AK. */
  lemma AromaTexts(r: nat)
    ensures var R := NatStr(r + 1);
      && Render(Formula(r, ColAH)) == "N" + R + "*AG3"
      && Render(Formula(r, ColAI)) == "AH" + R + "/1.24"
      && Render(Formula(r, ColAK)) == "(AJ" + R + "-AI" + R + ")/AI" + R
  {
    var R := NatStr(r + 1);
    assert ColName(ColN) == "N" && ColName(ColAG) == "AG" && ColName(ColAH) == "AH";
    assert ColName(ColAI) == "AI" && ColName(ColAJ) == "AJ";
    assert NatStr(MultiplierRow + 1) == "3";
    assert HundredthsText(124) == "1.24";
    var diff := Sub(Ref(r, ColAJ), Ref(r, ColAI));
    assert Render(diff) == "AJ" + R + "-AI" + R;
    assert Render(Paren(diff)) == "(AJ" + R + "-AI" + R + ")";
    assert Formula(r, ColAK) == Div(Paren(diff), Ref(r, ColAI));
  }

  /** `{ v: x || "", t: 's' }`. */
  function TextOrBlank(s: Option<string>): Cell {
    TextCell(TextOr(s, ""))
  }

  /** `{ v: x || "", t: x ? 'n' : 's' }`: a missing or zero number is written
      as an empty text. */
  function NumberOrBlank(x: Option<real>): (cell: Cell)
    ensures NumTruthy(x) ==> cell == ValueCell(Number(x.value))
    ensures !NumTruthy(x) ==> cell == TextCell("")
  {
    if NumTruthy(x) then ValueCell(Number(x.value)) else TextCell("")
  }

  /** `{ v: x || d, t: 'n' }`. */
  function NumberOr(x: Option<real>, d: real): (cell: Cell)
    ensures NumTruthy(x) ==> cell == ValueCell(Number(x.value))
    ensures !NumTruthy(x) ==> cell == ValueCell(Number(d))
  {
    ValueCell(Number(if NumTruthy(x) then x.value else d))
  }

  /** `{ v: item.row_number, t: 'n' }`, a stub when the number is null. */
  function RowNumberCell(x: Option<int>): Cell {
    Cell(if x.Some? then Some(Number(x.value as real)) else None, None, Some(N), None)
  }

  /** The value cell written for a record in a column without a formula. */
  function ValueColumn(item: PricingRow, c: nat): Cell
    requires c < Width && !IsFormulaColumn(c)
  {
    match c
    case 0 => RowNumberCell(item.rowNumber)
    case 1 => TextOrBlank(item.descriptionOfGoods)
    case 2 => TextOrBlank(item.material)
    case 3 => TextOrBlank(item.color)
    case 4 => TextOrBlank(item.supplierCode)
    case 5 => NumberOrBlank(item.qtyMeters)
    case 6 => TextOrBlank(item.rField)
    case 7 => TextOrBlank(item.remarksParalavi)
    case 8 => TextOrBlank(item.remarks)
    case 9 => TextOrBlank(item.pictureItems)
    case 10 => TextOrBlank(item.aromaCode)
    case 11 => TextOrBlank(item.aromaDescription)
    case 12 => TextOrBlank(item.client)
    case 13 => NumberOrBlank(item.priceExisting)
    case 14 => NumberOrBlank(item.newPrice)
    case 15 => TextOrBlank(item.photography)
    case 16 => NumberOrBlank(item.length)
    case 17 => NumberOrBlank(item.width)
    case 18 => NumberOrBlank(item.height)
    case 19 => NumberOrBlank(item.priceUsd)
    case 20 => NumberOr(item.shipToForwarder, 1.09)
    case 21 => NumberOr(item.multiplierBase, 1.09)
    case 32 => NumberOr(item.priceWithVat, 4.5)
    case _ => NumberOrBlank(item.proposalPrice)
  }

  /** The cell written for a record on 0-based row `r` in column `c`. */
  function RowCell(item: PricingRow, r: nat, c: nat): (cell: Cell)
    requires c < Width
    ensures IsFormulaColumn(c) ==> cell == FormulaCell(Formula(r, c))
    ensures !IsFormulaColumn(c) ==> cell.f.None? && (c != 0 ==> cell.v.Some?)
  {
    if IsFormulaColumn(c) then FormulaCell(Formula(r, c)) else ValueColumn(item, c)
  }

  /** Missing or zero numbers (F, N, O, Q, R, S, T, AJ) are written as empty
      text, not as numbers; U and V fall back to 1.09 and AG to 4.5. */
  lemma Defaults(item: PricingRow, r: nat)
    ensures !NumTruthy(item.qtyMeters) ==> RowCell(item, r, ColF) == TextCell("")
    ensures !NumTruthy(item.priceExisting) ==> RowCell(item, r, ColN) == TextCell("")
    ensures !NumTruthy(item.newPrice) ==> RowCell(item, r, 14) == TextCell("")
    ensures !NumTruthy(item.length) ==> RowCell(item, r, 16) == TextCell("")
    ensures !NumTruthy(item.width) ==> RowCell(item, r, 17) == TextCell("")
    ensures !NumTruthy(item.height) ==> RowCell(item, r, 18) == TextCell("")
    ensures !NumTruthy(item.priceUsd) ==> RowCell(item, r, ColT) == TextCell("")
    ensures !NumTruthy(item.proposalPrice) ==> RowCell(item, r, ColAJ) == TextCell("")
    ensures !NumTruthy(item.shipToForwarder) ==> RowCell(item, r, ColU).v == Some(Number(1.09))
    ensures !NumTruthy(item.multiplierBase) ==> RowCell(item, r, ColV).v == Some(Number(1.09))
    ensures !NumTruthy(item.priceWithVat) ==> RowCell(item, r, ColAG).v == Some(Number(4.5))
  {
  }

  /** One record's cells, keyed by position. */
  function RowMap(item: PricingRow, r: nat): (m: Grid)
    ensures forall p: (nat, nat) :: p in m <==> p.0 == r && p.1 < Width
    ensures forall c: nat :: c < Width ==> m[(r, c)] == RowCell(item, r, c)
  {
    map c: nat | c < Width :: (r, c) := RowCell(item, r, c)
  }

  /** Rows 3..2+k hold the first k records, the header is as it was, and
      there is nothing else. */
  ghost predicate RowsWritten(ws: Grid, header: Grid, items: seq<PricingRow>, k: nat)
    requires k <= |items|
  {
    && (forall p: (nat, nat) :: p in ws <==> p in header || InBlock(p, FirstDataRow, 2 + k, LastCol))
    && (forall p: (nat, nat) :: p in header ==> ws[p] == header[p])
    && (forall r: nat, c: nat :: FirstDataRow <= r <= 2 + k && c <= LastCol ==>
          (r, c) in ws && ws[(r, c)] == RowCell(items[r - FirstDataRow], r, c))
  }

  lemma WriteRowStep(ws: Grid, header: Grid, items: seq<PricingRow>, i: nat)
    requires i < |items| && RowsWritten(ws, header, items, i)
    requires forall p: (nat, nat) :: p in header ==> p.0 < FirstDataRow
    ensures RowsWritten(ws + RowMap(items[i], FirstDataRow + i), header, items, i + 1)
  {
    var row := RowMap(items[i], FirstDataRow + i);
    var ws' := ws + row;
    forall p: (nat, nat) | p in header
      ensures ws'[p] == header[p]
    {
      assert p !in row;
    }
    forall r: nat, c: nat | FirstDataRow <= r <= 2 + i + 1 && c <= LastCol
      ensures (r, c) in ws' && ws'[(r, c)] == RowCell(items[r - FirstDataRow], r, c)
    {
      OldRowKept(ws, row, items, i, r, c);
    }
  }

  lemma OldRowKept(ws: Grid, row: Grid, items: seq<PricingRow>, i: nat, r: nat, c: nat)
    requires i < |items| && row == RowMap(items[i], FirstDataRow + i)
    requires FirstDataRow <= r <= 3 + i && c <= LastCol
    requires r < FirstDataRow + i ==> (r, c) in ws && ws[(r, c)] == RowCell(items[r - FirstDataRow], r, c)
    ensures (r, c) in ws + row && (ws + row)[(r, c)] == RowCell(items[r - FirstDataRow], r, c)
  {
    if r < FirstDataRow + i {
      assert (r, c) !in row;
    }
  }

  /** The per-record loop: record i lands on 0-based row 3 + i, and the
      header is left as it was. */
  method WriteRows(header: Grid, items: seq<PricingRow>) returns (ws: Grid)
    requires forall p: (nat, nat) :: p in header ==> p.0 < FirstDataRow
    ensures RowsWritten(ws, header, items, |items|)
  {
    ws := header;
    for i := 0 to |items|
      invariant RowsWritten(ws, header, items, i)
    {
      WriteRowStep(ws, header, items, i);
      ws := ws + RowMap(items[i], FirstDataRow + i);
    }
  }

  // ---------------------------------------------------------------------
  // Styling and the workbook

  const HeaderStyle := Style(true, White, 10, Center, true, true, HeaderBlue, true, "")

  function DataStyle(fill: string): Style {
    Style(false, "", 0, Unaligned, true, false, fill, true, "")
  }

  /** The band of the `i`-th record's row: light blue first, then white. */
  function RowBand(i: nat): Style {
    if i % 2 == 0 then DataStyle(LightBlue) else DataStyle(White)
  }

  ghost predicate PricingKeys(g: Grid, n: nat) {
    forall p: (nat, nat) :: p in g <==> InHeader(p) || InBlock(p, FirstDataRow, 2 + n, LastCol)
  }

  ghost predicate PricingHeaderAt(g: Grid) {
    forall p: (nat, nat) :: InHeader(p) ==> p in g && g[p] == Restyle(TextCell(HeaderText(p)), HeaderStyle)
  }

  ghost predicate PricingBodyAt(g: Grid, items: seq<PricingRow>) {
    forall r: nat, c: nat :: FirstDataRow <= r <= 2 + |items| && c <= LastCol ==>
      (r, c) in g && g[(r, c)] == Restyle(RowCell(items[r - FirstDataRow], r, c), RowBand(r - FirstDataRow))
  }

  /** The exported workbook: the styled header and nothing else in rows 1..3,
      record i styled on row 4 + i across A..AK, range A1:AK{3+n}, the fixed
      merges and widths, three rows frozen. */
  ghost predicate PricingLayout(wb: Workbook, items: seq<PricingRow>, date: string) {
    && wb.fileName == "ENTYPO-PARALAVIS-" + date + ".xlsx"
    && wb.sheetName == "ENTYPO PARALAVIS"
    && wb.sheet.lastRow == 2 + |items| && wb.sheet.lastCol == LastCol
    && wb.sheet.merges == Merges && wb.sheet.cols == Widths && wb.sheet.freezeRows == 3
    && PricingKeys(wb.sheet.cells, |items|)
    && PricingHeaderAt(wb.sheet.cells)
    && PricingBodyAt(wb.sheet.cells, items)
  }

  /** The range text is `A1:AK{3+n}`. */
  lemma RangeText(n: nat)
    ensures AreaText(Area(0, 0, 2 + n, LastCol)) == "A1:AK" + NatStr(3 + n)
  {
    assert ColName(0) == "A" && ColName(LastCol) == "AK";
    assert NatStr(1) == "1";
  }

  lemma HeaderStyled(ws: Grid, ws2: Grid, n: nat)
    requires forall p: (nat, nat) :: p in ws <==> InHeader(p) || InBlock(p, FirstDataRow, 2 + n, LastCol)
    requires forall p: (nat, nat) :: InHeader(p) ==> ws[p] == TextCell(HeaderText(p))
    requires ws2.Keys == ws.Keys
    requires forall p: (nat, nat) :: p in ws && InBlock(p, 0, 2, LastCol) ==> ws2[p] == Restyle(ws[p], HeaderStyle)
    ensures PricingHeaderAt(ws2)
  {
    forall p: (nat, nat) | InHeader(p)
      ensures p in ws2 && ws2[p] == Restyle(TextCell(HeaderText(p)), HeaderStyle)
    {
      assert InBlock(p, 0, 2, LastCol);
    }
  }

  lemma BandedRows(ws: Grid, ws2: Grid, ws3: Grid, items: seq<PricingRow>)
    requires forall r: nat, c: nat :: FirstDataRow <= r <= 2 + |items| && c <= LastCol ==>
      (r, c) in ws && ws[(r, c)] == RowCell(items[r - FirstDataRow], r, c)
    requires ws2.Keys == ws.Keys
    requires forall p: (nat, nat) :: p in ws && !InBlock(p, 0, 2, LastCol) ==> ws2[p] == ws[p]
    requires forall p: (nat, nat) :: InBlock(p, FirstDataRow, 2 + |items|, LastCol) ==>
      p in ws3 && ws3[p] == Banded(ws2, p, FirstDataRow, DataStyle(LightBlue), DataStyle(White), BlankTextCell)
    ensures PricingBodyAt(ws3, items)
  {
    forall r: nat, c: nat | FirstDataRow <= r <= 2 + |items| && c <= LastCol
      ensures (r, c) in ws3 && ws3[(r, c)] == Restyle(RowCell(items[r - FirstDataRow], r, c), RowBand(r - FirstDataRow))
    {
      assert InBlock((r, c), FirstDataRow, 2 + |items|, LastCol) && !InBlock((r, c), 0, 2, LastCol);
    }
  }

  /** The export button: nothing on a fetch error or when there are no rows;
      otherwise the pricing sheet of every row, in the order fetched. */
  method ExportPricing(fetched: Fetch<PricingRow>, date: string) returns (wb: Option<Workbook>)
    ensures wb.None? <==> fetched.FetchError? || |fetched.rows| == 0
    ensures wb.Some? ==> PricingLayout(wb.value, fetched.rows, date)
  {
    if fetched.FetchError? || |fetched.rows| == 0 {
      return None;
    }
    var items := fetched.rows;
    var n := |items|;
    var header := WriteHeader();
    var ws := WriteRows(header, items);
    var ws2 := StyleExisting(ws, 0, 2, LastCol, HeaderStyle);
    HeaderStyled(ws, ws2, n);
    var ws3 := Band(ws2, FirstDataRow, 2 + n, LastCol, DataStyle(LightBlue), DataStyle(White), BlankTextCell);
    BandedRows(ws, ws2, ws3, items);
    assert PricingHeaderAt(ws3) by {
      forall p: (nat, nat) | InHeader(p)
        ensures p in ws3 && ws3[p] == ws2[p]
      {
        assert !InBlock(p, FirstDataRow, 2 + n, LastCol);
      }
    }
    wb := Some(Workbook("ENTYPO-PARALAVIS-" + date + ".xlsx", "ENTYPO PARALAVIS",
                        Worksheet(ws3, 2 + n, LastCol, Widths, Merges, 3)));
  }

  /** Header cells that are never written, such as C1, D1 and E1, are still
      absent after styling; every cell of every data row exists. */
  lemma HeaderGaps(wb: Workbook, items: seq<PricingRow>, date: string)
    requires PricingLayout(wb, items, date)
    ensures (0, 2) !in wb.sheet.cells && (0, 3) !in wb.sheet.cells && (0, 4) !in wb.sheet.cells
    ensures forall r: nat, c: nat :: FirstDataRow <= r <= 2 + |items| && c <= LastCol ==> (r, c) in wb.sheet.cells
  {
    assert !InHeader((0, 2)) && !InHeader((0, 3)) && !InHeader((0, 4));
  }

  // ---------------------------------------------------------------------
  // What the formulas compute

  /** A record row's cell holds what was written for it and agrees with the
      valuation. */
  lemma RowCellAgrees(wb: Workbook, items: seq<PricingRow>, date: string, env: (nat, nat) -> real, i: nat, c: nat)
    requires PricingLayout(wb, items, date) && Consistent(wb.sheet.cells, env) && i < |items| && c < Width
    ensures var g, r := wb.sheet.cells, FirstDataRow + i;
      && (r, c) in g && g[(r, c)].v == RowCell(items[i], r, c).v && g[(r, c)].f == RowCell(items[i], r, c).f
      && CellAgrees(g, env, r, c)
  {
    var g, r := wb.sheet.cells, FirstDataRow + i;
    assert (r, c) in g && g[(r, c)] == Restyle(RowCell(items[i], r, c), RowBand(i));
  }

  /** Cell (r, c) holds its column's formula and the valuation agrees with it. */
  ghost predicate FormulaHolds(g: Grid, env: (nat, nat) -> real, r: nat, c: nat)
    requires IsFormulaColumn(c)
  {
    (r, c) in g && g[(r, c)].f == Some(Formula(r, c)) && CellAgrees(g, env, r, c)
  }

  /** A cell whose formula multiplies two cells holds their product. */
  lemma ProductCell(g: Grid, env: (nat, nat) -> real, r: nat, c: nat, x: (nat, nat), y: (nat, nat))
    requires (r, c) in g && g[(r, c)].f == Some(Mul(Ref(x.0, x.1), Ref(y.0, y.1))) && CellAgrees(g, env, r, c)
    ensures env(r, c) == env(x.0, x.1) * env(y.0, y.1)
  {
    assert Eval(Ref(x.0, x.1), g, env) == Some(env(x.0, x.1));
    assert Eval(Ref(y.0, y.1), g, env) == Some(env(y.0, y.1));
    var e := Eval(Mul(Ref(x.0, x.1), Ref(y.0, y.1)), g, env);
    assert e.Some?;
    assert e.value == env(x.0, x.1) * env(y.0, y.1);
  }

  /** A cell whose formula scales a cell by a constant in hundredths holds
      the scaled value, whichever side the constant is on. */
  lemma ScaledCell(g: Grid, env: (nat, nat) -> real, r: nat, c: nat, x: (nat, nat), n: nat, constFirst: bool)
    requires (r, c) in g && CellAgrees(g, env, r, c)
    requires g[(r, c)].f == Some(if constFirst then Mul(Hundredths(n), Ref(x.0, x.1)) else Mul(Ref(x.0, x.1), Hundredths(n)))
    ensures constFirst ==> env(r, c) == (n as real / 100.0) * env(x.0, x.1)
    ensures !constFirst ==> env(r, c) == env(x.0, x.1) * (n as real / 100.0)
  {
    assert Eval(Ref(x.0, x.1), g, env) == Some(env(x.0, x.1));
    assert Eval(Hundredths(n), g, env) == Some(n as real / 100.0);
    if constFirst {
      var e := Eval(Mul(Hundredths(n), Ref(x.0, x.1)), g, env);
      assert e.Some?;
      assert e.value == (n as real / 100.0) * env(x.0, x.1);
    } else {
      var e := Eval(Mul(Ref(x.0, x.1), Hundredths(n)), g, env);
      assert e.Some?;
      assert e.value == env(x.0, x.1) * (n as real / 100.0);
    }
  }

  /** A cell whose formula adds two cells holds their sum. */
  lemma SumCell(g: Grid, env: (nat, nat) -> real, r: nat, c: nat, x: (nat, nat), y: (nat, nat))
    requires (r, c) in g && g[(r, c)].f == Some(Add(Ref(x.0, x.1), Ref(y.0, y.1))) && CellAgrees(g, env, r, c)
    ensures env(r, c) == env(x.0, x.1) + env(y.0, y.1)
  {
    assert Eval(Add(Ref(x.0, x.1), Ref(y.0, y.1)), g, env) == Some(env(x.0, x.1) + env(y.0, y.1));
  }

  /** An exported record's formula cell that multiplies two cells holds
      their product. */
  lemma ProductStep(wb: Workbook, items: seq<PricingRow>, date: string, env: (nat, nat) -> real, i: nat,
                    c: nat, x: (nat, nat), y: (nat, nat))
    requires PricingLayout(wb, items, date) && Consistent(wb.sheet.cells, env) && i < |items|
    requires IsFormulaColumn(c) && Formula(FirstDataRow + i, c) == Mul(Ref(x.0, x.1), Ref(y.0, y.1))
    ensures env(FirstDataRow + i, c) == env(x.0, x.1) * env(y.0, y.1)
  {
    FormulaCellHolds(wb, items, date, env, i, c);
    ProductCell(wb.sheet.cells, env, FirstDataRow + i, c, x, y);
  }

  /** An exported record's formula cell that scales a cell holds the scaled
      value. */
  lemma ScaledStep(wb: Workbook, items: seq<PricingRow>, date: string, env: (nat, nat) -> real, i: nat,
                   c: nat, x: (nat, nat), n: nat, constFirst: bool)
    requires PricingLayout(wb, items, date) && Consistent(wb.sheet.cells, env) && i < |items|
    requires IsFormulaColumn(c)
    requires Formula(FirstDataRow + i, c) == if constFirst then Mul(Hundredths(n), Ref(x.0, x.1)) else Mul(Ref(x.0, x.1), Hundredths(n))
    ensures constFirst ==> env(FirstDataRow + i, c) == (n as real / 100.0) * env(x.0, x.1)
    ensures !constFirst ==> env(FirstDataRow + i, c) == env(x.0, x.1) * (n as real / 100.0)
  {
    FormulaCellHolds(wb, items, date, env, i, c);
    ScaledCell(wb.sheet.cells, env, FirstDataRow + i, c, x, n, constFirst);
  }

  /** An exported record's formula cell that adds two cells holds their sum. */
  lemma SumStep(wb: Workbook, items: seq<PricingRow>, date: string, env: (nat, nat) -> real, i: nat,
                c: nat, x: (nat, nat), y: (nat, nat))
    requires PricingLayout(wb, items, date) && Consistent(wb.sheet.cells, env) && i < |items|
    requires IsFormulaColumn(c) && Formula(FirstDataRow + i, c) == Add(Ref(x.0, x.1), Ref(y.0, y.1))
    ensures env(FirstDataRow + i, c) == env(x.0, x.1) + env(y.0, y.1)
  {
    FormulaCellHolds(wb, items, date, env, i, c);
    SumCell(wb.sheet.cells, env, FirstDataRow + i, c, x, y);
  }

  /** The cost cascade on an exported record row, column by column:
      W = T * U, X = 0.47 * F, Y = W + X, Z = Y * F, AA = Z * 0.24,
      AB = Z + AA. */
  lemma CascadeSteps(wb: Workbook, items: seq<PricingRow>, date: string, env: (nat, nat) -> real, i: nat)
    requires PricingLayout(wb, items, date) && Consistent(wb.sheet.cells, env) && i < |items|
    ensures var r := FirstDataRow + i;
      && env(r, ColW) == env(r, ColT) * env(r, ColU)
      && env(r, ColX) == 0.47 * env(r, ColF)
      && env(r, ColY) == env(r, ColW) + env(r, ColX)
      && env(r, ColZ) == env(r, ColY) * env(r, ColF)
      && env(r, ColAA) == env(r, ColZ) * 0.24
      && env(r, ColAB) == env(r, ColZ) + env(r, ColAA)
  {
    var r := FirstDataRow + i;
    ProductStep(wb, items, date, env, i, ColW, (r, ColT), (r, ColU));
    ScaledStep(wb, items, date, env, i, ColX, (r, ColF), 47, true);
    SumStep(wb, items, date, env, i, ColY, (r, ColW), (r, ColX));
    ProductStep(wb, items, date, env, i, ColZ, (r, ColY), (r, ColF));
    ScaledStep(wb, items, date, env, i, ColAA, (r, ColZ), 24, false);
    SumStep(wb, items, date, env, i, ColAB, (r, ColZ), (r, ColAA));
  }

  lemma CascadeArithmetic(price: real, ship: real, qty: real, w: real, x: real, y: real, z: real, aa: real, ab: real)
    requires w == price * ship && x == 0.47 * qty && y == w + x
    requires z == y * qty && aa == z * 0.24 && ab == z + aa
    ensures ab == (price * ship + 0.47 * qty) * qty * 1.24
  {
  }

  /** The cost cascade of a record with a price and a quantity: landed with
      VAT is (price * ship + 0.47 * qty) * qty * 1.24, where ship is the
      record's ship-to-forwarder factor or 1.09. */
  lemma CascadeValue(wb: Workbook, items: seq<PricingRow>, date: string, env: (nat, nat) -> real, i: nat)
    requires PricingLayout(wb, items, date) && Consistent(wb.sheet.cells, env) && i < |items|
    requires NumTruthy(items[i].priceUsd) && NumTruthy(items[i].qtyMeters)
    ensures var r, item := FirstDataRow + i, items[i];
      var ship := if NumTruthy(item.shipToForwarder) then item.shipToForwarder.value else 1.09;
      var qty := item.qtyMeters.value;
      env(r, ColAB) == (item.priceUsd.value * ship + 0.47 * qty) * qty * 1.24
  {
    var r, item := FirstDataRow + i, items[i];
    var ship := if NumTruthy(item.shipToForwarder) then item.shipToForwarder.value else 1.09;
    CascadeInputs(item, r);
    NumberCellHolds(wb, items, date, env, i, ColT);
    NumberCellHolds(wb, items, date, env, i, ColU);
    NumberCellHolds(wb, items, date, env, i, ColF);
    CascadeSteps(wb, items, date, env, i);
    CascadeArithmetic(item.priceUsd.value, ship, item.qtyMeters.value, env(r, ColW), env(r, ColX), env(r, ColY),
                      env(r, ColZ), env(r, ColAA), env(r, ColAB));
  }

  /** The inputs of the cascade as written: T the price, U the shipping
      factor or 1.09, F the quantity. */
  lemma CascadeInputs(item: PricingRow, r: nat)
    ensures NumTruthy(item.priceUsd) ==> RowCell(item, r, ColT).v == Some(Number(item.priceUsd.value))
    ensures RowCell(item, r, ColU).v == Some(Number(if NumTruthy(item.shipToForwarder) then item.shipToForwarder.value else 1.09))
    ensures NumTruthy(item.qtyMeters) ==> RowCell(item, r, ColF).v == Some(Number(item.qtyMeters.value))
  {
  }

  /** A record cell that holds a number is valued at that number. */
  lemma NumberCellHolds(wb: Workbook, items: seq<PricingRow>, date: string, env: (nat, nat) -> real, i: nat, c: nat)
    requires PricingLayout(wb, items, date) && Consistent(wb.sheet.cells, env) && i < |items|
    requires c < Width && !IsFormulaColumn(c)
    ensures var v := RowCell(items[i], FirstDataRow + i, c).v;
      v.Some? && v.value.Number? ==> env(FirstDataRow + i, c) == v.value.x
  {
    RowCellAgrees(wb, items, date, env, i, c);
  }

  /** A record's formula cell holds its column's formula and agrees. */
  lemma FormulaCellHolds(wb: Workbook, items: seq<PricingRow>, date: string, env: (nat, nat) -> real, i: nat, c: nat)
    requires PricingLayout(wb, items, date) && Consistent(wb.sheet.cells, env) && i < |items|
    requires IsFormulaColumn(c)
    ensures FormulaHolds(wb.sheet.cells, env, FirstDataRow + i, c)
  {
    RowCellAgrees(wb, items, date, env, i, c);
  }

  /** Every formula cell of an exported record row holds its column's
      formula, and the valuation agrees with it. */
  lemma RowFormulasHold(wb: Workbook, items: seq<PricingRow>, date: string, env: (nat, nat) -> real, i: nat)
    requires PricingLayout(wb, items, date) && Consistent(wb.sheet.cells, env) && i < |items|
    ensures forall c :: IsFormulaColumn(c) ==> FormulaHolds(wb.sheet.cells, env, FirstDataRow + i, c)
  {
    forall c | IsFormulaColumn(c)
      ensures FormulaHolds(wb.sheet.cells, env, FirstDataRow + i, c)
    {
      FormulaCellHolds(wb, items, date, env, i, c);
    }
  }

  /** In a row whose formulas hold, the price columns AC..AF are
      landed-with-VAT times the multiplier in header row 3 of their own
      column, whatever that cell holds; AH is the existing price times AG3. */
  lemma PricesUseHeaderMultipliers(g: Grid, env: (nat, nat) -> real, r: nat)
    requires forall c :: IsFormulaColumn(c) ==> FormulaHolds(g, env, r, c)
    ensures forall c :: ColAC <= c <= ColAF ==> env(r, c) == env(r, ColAB) * env(MultiplierRow, c)
    ensures env(r, ColAH) == env(r, ColN) * env(MultiplierRow, ColAG)
  {
    forall c | ColAC <= c <= ColAF
      ensures env(r, c) == env(r, ColAB) * env(MultiplierRow, c)
    {
      ProductHolds(g, env, r, c);
    }
    ProductHolds(g, env, r, ColAH);
  }

  /** A price formula's cell is the product of the two cells it reads. */
  lemma ProductHolds(g: Grid, env: (nat, nat) -> real, r: nat, c: nat)
    requires ColAC <= c <= ColAF || c == ColAH
    requires FormulaHolds(g, env, r, c)
    ensures ColAC <= c <= ColAF ==> env(r, c) == env(r, ColAB) * env(MultiplierRow, c)
    ensures c == ColAH ==> env(r, c) == env(r, ColN) * env(MultiplierRow, ColAG)
  {
    if c == ColAH {
      ProductCell(g, env, r, c, (r, ColN), (MultiplierRow, ColAG));
    } else {
      ProductCell(g, env, r, c, (r, ColAB), (MultiplierRow, c));
    }
  }

  /** The multipliers those formulas read are the header texts of AC3..AG3. */
  lemma MultiplierCells(wb: Workbook, items: seq<PricingRow>, date: string)
    requires PricingLayout(wb, items, date)
    ensures forall c :: ColAC <= c <= ColAG ==>
      (MultiplierRow, c) in wb.sheet.cells && wb.sheet.cells[(MultiplierRow, c)].v == Some(Text(MultiplierText(c)))
    ensures MultiplierText(ColAC) == "2" && MultiplierText(ColAG) == "4.5"
  {
    forall c | ColAC <= c <= ColAG
      ensures (MultiplierRow, c) in wb.sheet.cells && wb.sheet.cells[(MultiplierRow, c)].v == Some(Text(MultiplierText(c)))
    {
      assert InHeader((MultiplierRow, c));
    }
  }

  // ---------------------------------------------------------------------
  // A valuation that exists

  /** What a spreadsheet program computes for cell (r, c) of a grid whose
      data-row formula cells hold the pricing formulas: such a cell is
      computed from the cells it reads, left to right along its row and from
      the multipliers of header row 3, with AK at 0 where AI is 0 (the sheet
      shows #DIV/0! there); every other cell is what it shows. */
  function PricingValue(g: Grid, r: nat, c: nat): real
    decreases if r >= FirstDataRow then c + 1 else 0
  {
    if (r, c) !in g then 0.0
    else if r >= FirstDataRow && IsFormulaColumn(c) && g[(r, c)].f == Some(Formula(r, c)) then
      if c == ColW then PricingValue(g, r, ColT) * PricingValue(g, r, ColU)
      else if c == ColX then (47 as real / 100.0) * PricingValue(g, r, ColF)
      else if c == ColY then PricingValue(g, r, ColW) + PricingValue(g, r, ColX)
      else if c == ColZ then PricingValue(g, r, ColY) * PricingValue(g, r, ColF)
      else if c == ColAA then PricingValue(g, r, ColZ) * (24 as real / 100.0)
      else if c == ColAB then PricingValue(g, r, ColZ) + PricingValue(g, r, ColAA)
      else if c <= ColAF then PricingValue(g, r, ColAB) * PricingValue(g, MultiplierRow, c)
      else if c == ColAH then PricingValue(g, r, ColN) * PricingValue(g, MultiplierRow, ColAG)
      else if c == ColAI then PricingValue(g, r, ColAH) / (124 as real / 100.0)
      else
        var ai := PricingValue(g, r, ColAI);
        if ai == 0.0 then 0.0 else (PricingValue(g, r, ColAJ) - ai) / ai
    else Shown(g[(r, c)])
  }

  function PricingValuation(g: Grid): (env: (nat, nat) -> real)
    ensures forall r: nat, c: nat :: env(r, c) == PricingValue(g, r, c)
  {
    (r: nat, c: nat) => PricingValue(g, r, c)
  }

  /** Every formula of the grid is its column's formula on a data row. */
  ghost predicate FormulasInPlace(g: Grid) {
    forall p: (nat, nat) :: p in g && g[p].f.Some? ==>
      p.0 >= FirstDataRow && IsFormulaColumn(p.1) && g[p].f == Some(Formula(p.0, p.1))
  }

  /** A pricing formula agrees with the value computed for its cell. */
  lemma PricingFormulaAgrees(g: Grid, r: nat, c: nat)
    requires (r, c) in g && r >= FirstDataRow && IsFormulaColumn(c) && g[(r, c)].f == Some(Formula(r, c))
    ensures CellAgrees(g, PricingValuation(g), r, c)
  {
    var env := PricingValuation(g);
    var v := PricingValue(g, r, c);
    var e := Formula(r, c);
    if c == ColAK {
      MarginAgrees(g, r);
    } else if c == ColW || c == ColZ {
      CostProductAgrees(g, r, c);
    } else if c == ColX || c == ColAA {
      CostScaleAgrees(g, r, c);
    } else if c == ColY || c == ColAB {
      CostSumAgrees(g, r, c);
    } else if c == ColAI {
      assert v == PricingValue(g, r, ColAH) / (124 as real / 100.0);
      assert e == Div(Ref(r, ColAH), Hundredths(124));
      assert Eval(Ref(r, ColAH), g, env) == Some(PricingValue(g, r, ColAH));
      assert Eval(Hundredths(124), g, env) == Some(124 as real / 100.0);
      assert Eval(e, g, env) == Some(v);
    } else if c == ColAH {
      var x, y := PricingValue(g, r, ColN), PricingValue(g, MultiplierRow, ColAG);
      assert Eval(Ref(r, ColN), g, env) == Some(x);
      assert Eval(Ref(MultiplierRow, ColAG), g, env) == Some(y);
      var p := Eval(e, g, env);
      assert p.Some? && p.value == x * y;
      assert v == x * y;
    } else {
      var x, y := PricingValue(g, r, ColAB), PricingValue(g, MultiplierRow, c);
      assert Eval(Ref(r, ColAB), g, env) == Some(x);
      assert Eval(Ref(MultiplierRow, c), g, env) == Some(y);
      var p := Eval(e, g, env);
      assert p.Some? && p.value == x * y;
      assert v == x * y;
    }
  }

  /** W and Z: a product of two cells of the row. */
  lemma CostProductAgrees(g: Grid, r: nat, c: nat)
    requires (r, c) in g && r >= FirstDataRow && (c == ColW || c == ColZ) && g[(r, c)].f == Some(Formula(r, c))
    ensures Eval(Formula(r, c), g, PricingValuation(g)) == Some(PricingValue(g, r, c))
  {
    var env := PricingValuation(g);
    var v := PricingValue(g, r, c);
    var e := Formula(r, c);
    if c == ColW {
      var x, y := PricingValue(g, r, ColT), PricingValue(g, r, ColU);
      assert Eval(Ref(r, ColT), g, env) == Some(x);
      assert Eval(Ref(r, ColU), g, env) == Some(y);
      var p := Eval(e, g, env);
      assert p.Some? && p.value == x * y;
      assert v == x * y;
    } else {
      var x, y := PricingValue(g, r, ColY), PricingValue(g, r, ColF);
      assert Eval(Ref(r, ColY), g, env) == Some(x);
      assert Eval(Ref(r, ColF), g, env) == Some(y);
      var p := Eval(e, g, env);
      assert p.Some? && p.value == x * y;
      assert v == x * y;
    }
  }

  /** X and AA: a cell scaled by 0.47 or by 0.24. */
  lemma CostScaleAgrees(g: Grid, r: nat, c: nat)
    requires (r, c) in g && r >= FirstDataRow && (c == ColX || c == ColAA) && g[(r, c)].f == Some(Formula(r, c))
    ensures Eval(Formula(r, c), g, PricingValuation(g)) == Some(PricingValue(g, r, c))
  {
    var env := PricingValuation(g);
    var v := PricingValue(g, r, c);
    var e := Formula(r, c);
    if c == ColX {
      assert v == (47 as real / 100.0) * PricingValue(g, r, ColF);
      assert Eval(e, g, env) == Some(v);
    } else {
      assert v == PricingValue(g, r, ColZ) * (24 as real / 100.0);
      assert Eval(e, g, env) == Some(v);
    }
  }

  /** Y and AB: a sum of two cells of the row. */
  lemma CostSumAgrees(g: Grid, r: nat, c: nat)
    requires (r, c) in g && r >= FirstDataRow && (c == ColY || c == ColAB) && g[(r, c)].f == Some(Formula(r, c))
    ensures Eval(Formula(r, c), g, PricingValuation(g)) == Some(PricingValue(g, r, c))
  {
    var env := PricingValuation(g);
    var v := PricingValue(g, r, c);
    var e := Formula(r, c);
    if c == ColY {
      assert v == PricingValue(g, r, ColW) + PricingValue(g, r, ColX);
      assert Eval(e, g, env) == Some(v);
    } else {
      assert v == PricingValue(g, r, ColZ) + PricingValue(g, r, ColAA);
      assert Eval(e, g, env) == Some(v);
    }
  }

  /** AK: the margin formula either divides by zero or gives the computed value. */
  lemma MarginAgrees(g: Grid, r: nat)
    requires (r, ColAK) in g && r >= FirstDataRow && g[(r, ColAK)].f == Some(Formula(r, ColAK))
    ensures CellAgrees(g, PricingValuation(g), r, ColAK)
  {
    var env := PricingValuation(g);
    var ai, aj := PricingValue(g, r, ColAI), PricingValue(g, r, ColAJ);
    var diff := Paren(Sub(Ref(r, ColAJ), Ref(r, ColAI)));
    assert PricingValue(g, r, ColAK) == if ai == 0.0 then 0.0 else (aj - ai) / ai;
    assert Formula(r, ColAK) == Div(diff, Ref(r, ColAI));
    assert Eval(Ref(r, ColAI), g, env) == Some(ai);
    assert Eval(Ref(r, ColAJ), g, env) == Some(aj);
    assert Eval(Sub(Ref(r, ColAJ), Ref(r, ColAI)), g, env) == Some(aj - ai);
    assert Eval(diff, g, env) == Some(aj - ai);
  }

  /** Any grid whose formulas are all in place has a consistent valuation. */
  lemma {:induction false} PricingValuationFits(g: Grid)
    requires FormulasInPlace(g)
    ensures Consistent(g, PricingValuation(g))
  {
    var env := PricingValuation(g);
    forall r: nat, c: nat | (r, c) in g
      ensures CellAgrees(g, env, r, c)
    {
      if g[(r, c)].f.Some? {
        PricingFormulaAgrees(g, r, c);
      } else {
        ShownCellAgrees(g, env, r, c);
      }
    }
  }

  /** The exported pricing sheet has a valuation consistent with all its
      formulas, so the cascade lemmas above are about a sheet that exists. */
  lemma PricingValuationConsistent(wb: Workbook, items: seq<PricingRow>, date: string)
    requires PricingLayout(wb, items, date)
    ensures Consistent(wb.sheet.cells, PricingValuation(wb.sheet.cells))
  {
    var g := wb.sheet.cells;
    forall p: (nat, nat) | p in g
      ensures g[p].f.Some? ==> p.0 >= FirstDataRow && IsFormulaColumn(p.1) && g[p].f == Some(Formula(p.0, p.1))
    {
      if InHeader(p) {
        assert g[p].f.None?;
      } else {
        var r, c := p.0, p.1;
        assert InBlock(p, FirstDataRow, 2 + |items|, LastCol);
        assert g[(r, c)] == Restyle(RowCell(items[r - FirstDataRow], r, c), RowBand(r - FirstDataRow));
      }
    }
    PricingValuationFits(g);
  }

  // ---------------------------------------------------------------------
  // Adding a row

  /** `data.reduce((max, item) => Math.max(max, item.row_number || 0), 0)`. */
  function MaxRowNumber(data: seq<PricingRow>): int {
    if |data| == 0 then 0
    else Max(MaxRowNumber(data[..|data| - 1]), data[|data| - 1].rowNumber.GetOr(0))
  }

  /** The next row number after the rows given: one past the largest. */
  function NewRowNumber(data: seq<PricingRow>): int {
    MaxRowNumber(data) + 1
  }

  /** The new number is at least 1 and above every row number among the
      rows given; it is 1 or one more than a number some row already has. */
  lemma {:induction false} NewRowNumberIsFresh(data: seq<PricingRow>)
    ensures NewRowNumber(data) >= 1
    ensures forall x :: x in data && x.rowNumber.Some? ==> x.rowNumber.value < NewRowNumber(data)
    ensures NewRowNumber(data) == 1 || exists x :: x in data && x.rowNumber == Some(NewRowNumber(data) - 1)
  {
    if |data| > 0 {
      var prefix, last := data[..|data| - 1], data[|data| - 1];
      NewRowNumberIsFresh(prefix);
      assert data == prefix + [last];
      if MaxRowNumber(prefix) < last.rowNumber.GetOr(0) {
        assert last.rowNumber == Some(NewRowNumber(data) - 1);
      }
    }
  }

  // ---------------------------------------------------------------------
  // Numbering from the loaded page only

  /** The table hook loads one server page of rows sorted by row number;
      with no pagination option that page holds 10 rows. */
  const PageSize: nat := 10

  /** `data`: the first page of the table, which is sorted by row number. */
  function LoadedPage(table: seq<PricingRow>): (page: seq<PricingRow>)
    ensures |page| == if |table| <= PageSize then |table| else PageSize
    ensures page == table[..|page|]
  {
    if |table| <= PageSize then table else table[..PageSize]
  }

  /** The number the page gives a new row, as written: the maximum is taken
      over the loaded page, not over the table. */
  function NewRowNumberAsWritten(table: seq<PricingRow>): int {
    NewRowNumber(LoadedPage(table))
  }

  /** A stored row with only its number set. */
  function RowNumbered(k: int): (row: PricingRow)
    ensures row.rowNumber == Some(k)
  {
    PricingRow(
      Some(k), None, None, None, None, None, None, None, None, None, None, None, None,
      None, None, None, None, None, None, None, None, None, None, None, None, None, None,
      None, None, None, None)
  }

  /** Eleven rows numbered 1..11: the loaded page holds 1..10, so the new
      row is numbered 11, which the last row of the table already has. */
  lemma PagedNumberRepeats()
    ensures var table := seq(11, i requires 0 <= i < 11 => RowNumbered(i + 1));
      NewRowNumberAsWritten(table) == 11 && table[10].rowNumber == Some(11)
  {
    var table := seq(11, i requires 0 <= i < 11 => RowNumbered(i + 1));
    var page := LoadedPage(table);
    assert |page| == 10;
    NewRowNumberIsFresh(page);
    assert page[9] in page && page[9].rowNumber == Some(10);
    forall x | x in page
      ensures x.rowNumber.Some? && x.rowNumber.value <= 10
    {
      var j :| 0 <= j < |page| && page[j] == x;
      assert x == RowNumbered(j + 1);
    }
  }

  /** While the table fits in one page the two numberings agree. */
  lemma AsWrittenAgreesOnOnePage(table: seq<PricingRow>)
    requires |table| <= PageSize
    ensures NewRowNumberAsWritten(table) == NewRowNumber(table)
  {
  }

  /** The values a new row is created with: the next row number after the
      whole table (the numbering the page evidently intends; see
      `NewRowNumberAsWritten`) and the default factors and margins;
      everything else empty. */
  function NewRow(table: seq<PricingRow>): (row: PricingRow)
    ensures row.rowNumber == Some(NewRowNumber(table))
    ensures forall x :: x in table && x.rowNumber.Some? ==> x.rowNumber.value < row.rowNumber.value
  {
    NewRowNumberIsFresh(table);
    PricingRow(
      Some(NewRowNumber(table)), None, None, None, None, None, None, None, None, None, None, None, None,
      None, None, None, None, None, None, None,
      Some(1.09), Some(1.09), Some(2.0), Some(2.5), Some(3.0), Some(3.5), Some(4.5),
      None, None, Some(1.0), Some(-0.4))
  }

  /** A new row exports with the same U, V and AG as a row whose factors are
      missing altogether: the creation defaults are the export's fallbacks. */
  lemma NewRowMatchesExportFallbacks(table: seq<PricingRow>, blank: PricingRow, r: nat)
    requires blank.shipToForwarder.None? && blank.multiplierBase.None? && blank.priceWithVat.None?
    ensures RowCell(NewRow(table), r, ColU) == RowCell(blank, r, ColU)
    ensures RowCell(NewRow(table), r, ColV) == RowCell(blank, r, ColV)
    ensures RowCell(NewRow(table), r, ColAG) == RowCell(blank, r, ColAG)
  {
  }
}
