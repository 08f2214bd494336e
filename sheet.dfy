/** The worksheet the exports build: a dictionary from (row, column), both
    0-based, to a cell holding a value or a formula and a style.  The three
    loops every styled export shares live here: column autosizing, header
    styling and alternating-row banding.  Formulas are a small expression
    datatype with the A1 text the exports write and a spreadsheet meaning. */
module Sheet {
  import opened Common

  /** A literal cell value (`v`). */
  datatype Value = Text(s: string) | Number(x: real)

  /** The cell type tag (`t`): string, number, or the stub SheetJS writes for
      a null or undefined value. */
  datatype Kind = S | N | Z

  datatype Align = Unaligned | Left | Center | Right

  /** The parts of a style object (`s`) that the exports set; "" and 0 stand
      for a part left unset. */
  datatype Style = Style(
    bold: bool, fontRgb: string, fontSize: nat,
    hAlign: Align, vCenter: bool, wrap: bool,
    fill: string, border: bool, numFmt: string)

  datatype Cell = Cell(v: Option<Value>, f: Option<Expr>, t: Option<Kind>, s: Option<Style>)

  /** Cells keyed by (row, column), 0-based. */
  type Grid = map<(nat, nat), Cell>

  /** A rectangle of cells, corners included: a merge or a formula range. */
  datatype Area = Area(top: nat, left: nat, bottom: nat, right: nat)

  /** A formula. `Hundredths(n)` is the literal n/100, written with two decimals. */
  datatype Expr =
    | Ref(row: nat, col: nat)
    | Hundredths(n: nat)
    | Add(a: Expr, b: Expr)
    | Sub(a: Expr, b: Expr)
    | Mul(a: Expr, b: Expr)
    | Div(a: Expr, b: Expr)
    | Paren(e: Expr)
    | SumOf(range: Area)
    | SumIf(test: Area, criterion: string, sum: Area)

  datatype Worksheet = Worksheet(
    cells: Grid, lastRow: nat, lastCol: nat,
    cols: seq<real>, merges: seq<Area>, freezeRows: nat)

  datatype Workbook = Workbook(fileName: string, sheetName: string, sheet: Worksheet)

  /** `{ v, t }` as SheetJS writes a string or a number. */
  function ValueCell(x: Value): Cell {
    Cell(Some(x), None, Some(if x.Text? then S else N), None)
  }

  /** `{ f, t: 'n' }`. */
  function FormulaCell(e: Expr): Cell {
    Cell(None, Some(e), Some(N), None)
  }

  /** The cell `json_to_sheet` writes for one field of an exported object. */
  function JsonCell(x: Option<Value>): Cell {
    match x
    case Some(v) => ValueCell(v)
    case None => Cell(None, None, Some(Z), None)
  }

  /** The `.s = {...}` assignment: a new style, everything else kept. */
  function Restyle(cell: Cell, style: Style): Cell {
    cell.(s := Some(style))
  }

  /** The blank `{ v: "" }` the banding loops create for a missing cell. */
  const BlankCell := Cell(Some(Text("")), None, None, None)

  /** The blank `{ v: "", t: 's' }` of the pricing sheet. */
  const BlankTextCell := Cell(Some(Text("")), None, Some(S), None)

  const LightBlue := "DAEEF3"
  const White := "FFFFFF"
  const HeaderBlue := "4472C4"

  /** The layout `XLSX.utils.json_to_sheet` gives an object list, taken as an
      assumption: the header row at row `origin`, then one row per object,
      a stub cell for a null field, and no cells at all for an empty list. */
  method JsonToSheet(header: seq<string>, rows: seq<seq<Option<Value>>>, origin: nat) returns (ws: Grid)
    requires forall i :: 0 <= i < |rows| ==> |rows[i]| == |header|
    ensures forall p: (nat, nat) :: p in ws <==> |rows| > 0 && origin <= p.0 <= origin + |rows| && p.1 < |header|
    ensures |rows| > 0 ==> forall c :: 0 <= c < |header| ==> ws[(origin, c)] == ValueCell(Text(header[c]))
    ensures forall i, c :: 0 <= i < |rows| && 0 <= c < |header| ==> ws[(origin + 1 + i, c)] == JsonCell(rows[i][c])
  {
    if |rows| == 0 {
      ws := map[];
    } else {
      ws := map r: nat, c: nat | origin <= r <= origin + |rows| && c < |header| ::
        (r, c) := if r == origin then ValueCell(Text(header[c])) else JsonCell(rows[r - origin - 1][c]);
      forall i, c | 0 <= i < |rows| && 0 <= c < |header|
        ensures (origin + 1 + i, c) in ws && ws[(origin + 1 + i, c)] == JsonCell(rows[i][c])
      {
        var r := origin + 1 + i;
        assert r - origin - 1 == i;
      }
    }
  }

  /** The last row of the range `json_to_sheet` records in `!ref`. */
  function JsonLastRow(rowCount: nat, origin: nat): nat { origin + rowCount }

  /** The last column of that range (column A for an empty list). */
  function JsonLastCol(header: seq<string>, rowCount: nat): nat {
    if rowCount == 0 || |header| == 0 then 0 else |header| - 1
  }

  // ---------------------------------------------------------------------
  // Addresses and formula text

  predicate IsLetter(ch: char) { 'A' <= ch <= 'Z' }

  function Letter(k: nat): (ch: char)
    requires k < 26
    ensures IsLetter(ch)
  {
    ('A' as int + k) as char
  }

  /** `encode_col`: 0 -> "A", 25 -> "Z", 26 -> "AA", 36 -> "AK". */
  function ColName(c: nat): (s: string)
    ensures |s| >= 1
    ensures forall i :: 0 <= i < |s| ==> IsLetter(s[i])
  {
    if c < 26 then [Letter(c)] else ColName(c / 26 - 1) + [Letter(c % 26)]
  }

  /** The column number a run of letters names. */
  function ColIndex(s: string): int
    requires |s| >= 1 && forall i :: 0 <= i < |s| ==> IsLetter(s[i])
  {
    var last := s[|s| - 1] as int - 'A' as int;
    if |s| == 1 then last else (ColIndex(s[..|s| - 1]) + 1) * 26 + last
  }

  /** The column letters `ColName` writes name that column back. */
  lemma {:induction false} ColIndexOfColName(c: nat)
    ensures ColIndex(ColName(c)) == c
  {
    if c >= 26 {
      var s := ColName(c);
      assert s[..|s| - 1] == ColName(c / 26 - 1);
      ColIndexOfColName(c / 26 - 1);
    }
  }

  /** `encode_cell({ r, c })`: letters, then the 1-based row number. */
  function Address(r: nat, c: nat): string {
    ColName(c) + NatStr(r + 1)
  }

  /** How many letters a string starts with. */
  function LeadingLetters(s: string): nat {
    if |s| == 0 || !IsLetter(s[0]) then 0 else 1 + LeadingLetters(s[1..])
  }

  lemma {:induction false} LeadingLettersOf(a: string, d: string)
    requires forall i :: 0 <= i < |a| ==> IsLetter(a[i])
    requires |d| >= 1 && IsDigit(d[0])
    ensures LeadingLetters(a + d) == |a|
  {
    if |a| > 0 {
      assert (a + d)[1..] == a[1..] + d;
      LeadingLettersOf(a[1..], d);
    }
  }

  /** Distinct cells have distinct addresses, so every formula text names the
      cells it was built from and no others. */
  lemma AddressInjective(r1: nat, c1: nat, r2: nat, c2: nat)
    requires Address(r1, c1) == Address(r2, c2)
    ensures r1 == r2 && c1 == c2
  {
    var a, b := ColName(c1), ColName(c2);
    var d1, d2 := NatStr(r1 + 1), NatStr(r2 + 1);
    var s := a + d1;
    assert s == b + d2;
    LeadingLettersOf(a, d1);
    LeadingLettersOf(b, d2);
    assert a == s[..|a|] == b;
    assert d1 == s[|a|..] == d2;
    ColIndexOfColName(c1);
    ColIndexOfColName(c2);
    NatStrInjective(r1 + 1, r2 + 1);
  }

  function AreaText(a: Area): string {
    Address(a.top, a.left) + ":" + Address(a.bottom, a.right)
  }

  function HundredthsText(n: nat): string {
    NatStr(n / 100) + "." + [Digit(n / 10 % 10), Digit(n % 10)]
  }

  /** The formula text (`f`) the exports write. */
  function Render(e: Expr): string {
    match e
    case Ref(r, c) => Address(r, c)
    case Hundredths(n) => HundredthsText(n)
    case Add(a, b) => Render(a) + "+" + Render(b)
    case Sub(a, b) => Render(a) + "-" + Render(b)
    case Mul(a, b) => Render(a) + "*" + Render(b)
    case Div(a, b) => Render(a) + "/" + Render(b)
    case Paren(x) => "(" + Render(x) + ")"
    case SumOf(r) => "SUM(" + AreaText(r) + ")"
    case SumIf(t, crit, r) => "SUMIF(" + AreaText(t) + ",\"" + crit + "\"," + AreaText(r) + ")"
  }

  /** The cells a formula reads. */
  function Refs(e: Expr): set<(nat, nat)> {
    match e
    case Ref(r, c) => {(r, c)}
    case Hundredths(_) => {}
    case Add(a, b) => Refs(a) + Refs(b)
    case Sub(a, b) => Refs(a) + Refs(b)
    case Mul(a, b) => Refs(a) + Refs(b)
    case Div(a, b) => Refs(a) + Refs(b)
    case Paren(x) => Refs(x)
    case SumOf(r) => AreaCells(r)
    case SumIf(t, _, r) => AreaCells(t) + AreaCells(r)
  }

  function AreaCells(a: Area): set<(nat, nat)> {
    set r: nat, c: nat | a.top <= r <= a.bottom && a.left <= c <= a.right :: (r, c)
  }

  // ---------------------------------------------------------------------
  // What a formula computes

  /** A term of SUM: text cells count 0, everything else its value. */
  function SumTerm(ws: Grid, env: (nat, nat) -> real, r: nat, c: nat): real {
    if (r, c) in ws && ws[(r, c)].f.None? && ws[(r, c)].v.Some? && ws[(r, c)].v.value.Text? then 0.0
    else env(r, c)
  }

  /** SUM over rows `top`..`bottom` of column `c`. */
  function SumColumn(ws: Grid, env: (nat, nat) -> real, c: nat, top: nat, bottom: int): real
    decreases bottom - top
  {
    if bottom < top then 0.0
    else SumColumn(ws, env, c, top, bottom - 1) + SumTerm(ws, env, bottom as nat, c)
  }

  /** SUM over the columns `left`..`right` of an area. */
  function SumColumns(ws: Grid, env: (nat, nat) -> real, a: Area, right: int): real
    decreases right - a.left
  {
    if right < a.left then 0.0
    else SumColumns(ws, env, a, right - 1) + SumColumn(ws, env, right as nat, a.top, a.bottom)
  }

  /** SUMIF over a single column: the `k`-th test cell selects the `k`-th sum cell
      when its text equals the criterion. */
  function SumIfColumn(ws: Grid, env: (nat, nat) -> real, test: Area, crit: string, sum: Area, k: int): real
    decreases k
  {
    if k < 0 then 0.0
    else
      var selected := (test.top + k, test.left) in ws && ws[(test.top + k, test.left)].v == Some(Text(crit));
      SumIfColumn(ws, env, test, crit, sum, k - 1)
        + (if selected then SumTerm(ws, env, sum.top + k, sum.left) else 0.0)
  }

  /** The value a formula computes when every cell (r, c) holds `env(r, c)`;
      None is a spreadsheet error (#DIV/0!). */
  function Eval(e: Expr, ws: Grid, env: (nat, nat) -> real): Option<real> {
    match e
    case Ref(r, c) => Some(env(r, c))
    case Hundredths(n) => Some(n as real / 100.0)
    case Add(a, b) =>
      (match (Eval(a, ws, env), Eval(b, ws, env))
       case (Some(x), Some(y)) => Some(x + y)
       case _ => None)
    case Sub(a, b) =>
      (match (Eval(a, ws, env), Eval(b, ws, env))
       case (Some(x), Some(y)) => Some(x - y)
       case _ => None)
    case Mul(a, b) =>
      (match (Eval(a, ws, env), Eval(b, ws, env))
       case (Some(x), Some(y)) => Some(x * y)
       case _ => None)
    case Div(a, b) =>
      (match (Eval(a, ws, env), Eval(b, ws, env))
       case (Some(x), Some(y)) => if y == 0.0 then None else Some(x / y)
       case _ => None)
    case Paren(x) => Eval(x, ws, env)
    case SumOf(r) => Some(SumColumns(ws, env, r, r.right))
    case SumIf(t, crit, r) => Some(SumIfColumn(ws, env, t, crit, r, t.bottom - t.top))
  }

  /** `env` gives every cell the value a spreadsheet shows for it: a number
      its number, an empty or stub cell 0, a formula cell what its formula
      computes (unless that is an error).  Text cells are left free. */
  ghost predicate Consistent(ws: Grid, env: (nat, nat) -> real) {
    && (forall r: nat, c: nat :: BlankIsZero(ws, env, r, c))
    && (forall r: nat, c: nat {:trigger CellAgrees(ws, env, r, c)} :: (r, c) in ws ==> CellAgrees(ws, env, r, c))
  }

  /** What a cell without a formula shows: its number, 0 otherwise. */
  function Shown(cell: Cell): real {
    if cell.v.Some? && cell.v.value.Number? then cell.v.value.x else 0.0
  }

  /** A cell with nothing in it counts as 0. */
  ghost predicate BlankIsZero(ws: Grid, env: (nat, nat) -> real, r: nat, c: nat) {
    (r, c) !in ws ==> env(r, c) == 0.0
  }

  ghost predicate CellAgrees(ws: Grid, env: (nat, nat) -> real, r: nat, c: nat)
    requires (r, c) in ws
  {
    var cell := ws[(r, c)];
    match cell.f
    case Some(e) => Eval(e, ws, env) == Some(env(r, c)) || Eval(e, ws, env).None?
    case None =>
      match cell.v
      case None => env(r, c) == 0.0
      case Some(Number(x)) => env(r, c) == x
      case Some(Text(_)) => true
  }

  /** A cell without a formula agrees with a valuation that gives it what it shows. */
  lemma ShownCellAgrees(g: Grid, env: (nat, nat) -> real, r: nat, c: nat)
    requires (r, c) in g && g[(r, c)].f.None? && env(r, c) == Shown(g[(r, c)])
    ensures CellAgrees(g, env, r, c)
  {
  }

  // ---------------------------------------------------------------------
  // Column autosizing

  /** JavaScript truthiness of `cell.v`. */
  predicate Truthy(v: Option<Value>) {
    match v
    case None => false
    case Some(Text(s)) => s != ""
    case Some(Number(x)) => x != 0.0
  }

  /** `cell.v.toString()`; numbers are rendered by `show`. */
  function Display(x: Value, show: real -> string): string {
    match x
    case Text(s) => s
    case Number(n) => show(n)
  }

  /** What one cell asks of its column's width: `len + 2` if its value is
      truthy, nothing otherwise. */
  function CellWidth(ws: Grid, r: nat, c: nat, show: real -> string): nat {
    if (r, c) in ws && Truthy(ws[(r, c)].v) then |Display(ws[(r, c)].v.value, show)| + 2 else 0
  }

  /** The width the autosize loop reaches for column `c` after rows 0..hi-1. */
  function WidthUpTo(ws: Grid, c: nat, hi: nat, show: real -> string): (w: nat)
    ensures w >= 10
  {
    if hi == 0 then 10 else Max(WidthUpTo(ws, c, hi - 1, show), CellWidth(ws, hi - 1, c, show))
  }

  /** The autosized width of column `c` over rows 0..lastRow. */
  function ColumnWidth(ws: Grid, c: nat, lastRow: nat, show: real -> string): nat {
    WidthUpTo(ws, c, lastRow + 1, show)
  }

  /** Every width covers each truthy cell of its column, plus two. */
  lemma {:induction false} WidthCoversCells(ws: Grid, c: nat, hi: nat, show: real -> string)
    ensures forall r :: 0 <= r < hi && (r, c) in ws && Truthy(ws[(r, c)].v) ==>
      WidthUpTo(ws, c, hi, show) >= |Display(ws[(r, c)].v.value, show)| + 2
  {
    if hi > 0 {
      WidthCoversCells(ws, c, hi - 1, show);
    }
  }

  /** Every width is either the minimum 10 or exactly some truthy cell's
      length plus two: the loop takes a maximum and nothing else. */
  lemma {:induction false} WidthIsAttained(ws: Grid, c: nat, hi: nat, show: real -> string)
    ensures WidthUpTo(ws, c, hi, show) == 10 ||
      exists r :: 0 <= r < hi && CellWidth(ws, r, c, show) > 0 && WidthUpTo(ws, c, hi, show) == CellWidth(ws, r, c, show)
  {
    if hi > 0 {
      WidthIsAttained(ws, c, hi - 1, show);
    }
  }

  /** Widths depend only on the truthy values of a column: restyling cells or
      adding blank ones leaves them alone. */
  lemma {:induction false} WidthsAgree(ws1: Grid, ws2: Grid, c: nat, hi: nat, show: real -> string)
    requires forall r :: 0 <= r < hi ==> CellWidth(ws1, r, c, show) == CellWidth(ws2, r, c, show)
    ensures WidthUpTo(ws1, c, hi, show) == WidthUpTo(ws2, c, hi, show)
  {
    if hi > 0 {
      WidthsAgree(ws1, ws2, c, hi - 1, show);
    }
  }

  /** The autosize loop: for each column, start at 10 and raise the width to
      `len + 2` of every truthy cell in rows 0..lastRow. */
  method AutoWidths(ws: Grid, lastRow: nat, lastCol: nat, show: real -> string) returns (widths: seq<real>)
    ensures |widths| == lastCol + 1
    ensures forall c :: 0 <= c <= lastCol ==> widths[c] == ColumnWidth(ws, c, lastRow, show) as real
  {
    widths := [];
    var col := 0;
    while col <= lastCol
      invariant 0 <= col <= lastCol + 1
      invariant |widths| == col
      invariant forall c :: 0 <= c < col ==> widths[c] == ColumnWidth(ws, c, lastRow, show) as real
    {
      var maxWidth := 10;
      var row := 0;
      while row <= lastRow
        invariant 0 <= row <= lastRow + 1
        invariant maxWidth == WidthUpTo(ws, col, row, show)
      {
        if (row, col) in ws && Truthy(ws[(row, col)].v) {
          var cellLength := |Display(ws[(row, col)].v.value, show)|;
          maxWidth := Max(maxWidth, cellLength + 2);
        }
        row := row + 1;
      }
      widths := widths + [maxWidth as real];
      col := col + 1;
    }
  }

  // ---------------------------------------------------------------------
  // Header styling and banding

  predicate InBlock(p: (nat, nat), firstRow: nat, lastRow: int, lastCol: nat) {
    firstRow <= p.0 <= lastRow && p.1 <= lastCol
  }

  /** The header loops: every EXISTING cell of rows firstRow..lastRow,
      columns 0..lastCol gets `style`; missing cells stay missing. */
  method StyleExisting(ws: Grid, firstRow: nat, lastRow: nat, lastCol: nat, style: Style) returns (out: Grid)
    ensures out.Keys == ws.Keys
    ensures forall p: (nat, nat) :: p in ws && InBlock(p, firstRow, lastRow, lastCol) ==> out[p] == Restyle(ws[p], style)
    ensures forall p: (nat, nat) :: p in ws && !InBlock(p, firstRow, lastRow, lastCol) ==> out[p] == ws[p]
  {
    out := ws;
    var row := firstRow;
    while row <= lastRow
      invariant firstRow <= row && (firstRow <= lastRow ==> row <= lastRow + 1) && (lastRow < firstRow ==> row == firstRow)
      invariant out.Keys == ws.Keys
      invariant forall p: (nat, nat) :: p in ws && InBlock(p, firstRow, row - 1, lastCol) ==> out[p] == Restyle(ws[p], style)
      invariant forall p: (nat, nat) :: p in ws && !InBlock(p, firstRow, row - 1, lastCol) ==> out[p] == ws[p]
    {
      var col := 0;
      while col <= lastCol
        invariant 0 <= col <= lastCol + 1
        invariant out.Keys == ws.Keys
        invariant forall p: (nat, nat) :: p in ws && (InBlock(p, firstRow, row - 1, lastCol) || (p.0 == row && p.1 < col)) ==>
          out[p] == Restyle(ws[p], style)
        invariant forall p: (nat, nat) :: p in ws && !(InBlock(p, firstRow, row - 1, lastCol) || (p.0 == row && p.1 < col)) ==>
          out[p] == ws[p]
      {
        if (row, col) in out {
          out := out[(row, col) := Restyle(out[(row, col)], style)];
        }
        col := col + 1;
      }
      row := row + 1;
    }
    assert forall p: (nat, nat) :: InBlock(p, firstRow, lastRow, lastCol) == InBlock(p, firstRow, row - 1, lastCol);
  }

  /** The band a row of the banded block gets: light blue on even offsets from
      its first row, white on odd ones. */
  function BandFill(offset: nat): string {
    if offset % 2 == 0 then LightBlue else White
  }

  /** What banding leaves at one cell of its block. */
  function Banded(ws: Grid, p: (nat, nat), firstRow: nat, even: Style, odd: Style, blank: Cell): Cell
    requires p.0 >= firstRow
  {
    Restyle(if p in ws then ws[p] else blank, if (p.0 - firstRow) % 2 == 0 then even else odd)
  }

  /** The banding loops: every cell of rows firstRow..lastRow, columns
      0..lastCol is created if missing and restyled with the band of its row;
      nothing outside the block changes. */
  method Band(ws: Grid, firstRow: nat, lastRow: int, lastCol: nat, even: Style, odd: Style, blank: Cell)
    returns (out: Grid)
    ensures forall p: (nat, nat) :: p in ws ==> p in out
    ensures forall p: (nat, nat) :: InBlock(p, firstRow, lastRow, lastCol) ==>
      p in out && out[p] == Banded(ws, p, firstRow, even, odd, blank)
    ensures forall p: (nat, nat) :: p in out && !InBlock(p, firstRow, lastRow, lastCol) ==> p in ws && out[p] == ws[p]
  {
    out := ws;
    var row := firstRow;
    while row <= lastRow
      invariant firstRow <= row && (firstRow <= lastRow ==> row <= lastRow + 1) && (lastRow < firstRow ==> row == firstRow)
      invariant forall p: (nat, nat) :: p in ws ==> p in out
      invariant forall p: (nat, nat) :: InBlock(p, firstRow, row - 1, lastCol) ==>
        p in out && out[p] == Banded(ws, p, firstRow, even, odd, blank)
      invariant forall p: (nat, nat) :: p in out && !InBlock(p, firstRow, row - 1, lastCol) ==> p in ws && out[p] == ws[p]
    {
      var col := 0;
      while col <= lastCol
        invariant 0 <= col <= lastCol + 1
        invariant forall p: (nat, nat) :: p in ws ==> p in out
        invariant forall p: (nat, nat) :: InBlock(p, firstRow, row - 1, lastCol) || (p.0 == row && p.1 < col) ==>
          p in out && out[p] == Banded(ws, p, firstRow, even, odd, blank)
        invariant forall p: (nat, nat) :: p in out && !(InBlock(p, firstRow, row - 1, lastCol) || (p.0 == row && p.1 < col)) ==>
          p in ws && out[p] == ws[p]
      {
        var cell := if (row, col) in out then out[(row, col)] else blank;
        out := out[(row, col) := Restyle(cell, if (row - firstRow) % 2 == 0 then even else odd)];
        col := col + 1;
      }
      row := row + 1;
    }
    assert forall p: (nat, nat) :: InBlock(p, firstRow, lastRow, lastCol) == InBlock(p, firstRow, row - 1, lastCol);
  }
}
