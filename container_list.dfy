/** The plain export of the container-items list page: the rows on the
    current page as a flat sheet with a header row, the header cells bold on
    a blue fill.  Columns with a `||` fallback never come out empty; the
    rest follow the record. */
module ContainerList {
  import opened Common
  import opened Records
  import opened Sheet
  import opened ContainerStats

  const ListHeaders: seq<string> := [
    "Reference Code", "Supplier", "CBM", "Cartons", "Gross Weight", "Product Cost",
    "Price Terms", "Payment", "Remaining", "Status", "Production Days",
    "Production Ready", "Client", "Container"]

  const SupplierCol: nat := 1
  const PaymentCol: nat := 7
  const RemainingCol: nat := 8

  function TextField(s: Option<string>): Option<Value> {
    match s
    case Some(v) => Some(Text(v))
    case None => None
  }

  function NumberField(x: Option<real>): Option<Value> {
    match x
    case Some(v) => Some(Number(v))
    case None => None
  }

  function CountField(x: Option<int>): Option<Value> {
    match x
    case Some(v) => Some(Number(v as real))
    case None => None
  }

  /** `item.remaining || item.product_cost`. */
  function RemainingField(item: LineItem): Option<Value> {
    if NumTruthy(item.remaining) then NumberField(item.remaining) else NumberField(item.productCost)
  }

  /** The object exported for one item, in header order. */
  function ListRow(item: LineItem): (row: seq<Option<Value>>)
    ensures |row| == |ListHeaders|
  {
    [ Some(Text(item.referenceCode)),
      TextField(item.supplier),
      NumberField(item.cbm),
      CountField(item.cartons),
      NumberField(item.grossWeight),
      NumberField(item.productCost),
      Some(Text(TextOr(item.priceTerms, ""))),
      Some(Number(NumOr0(item.payment))),
      RemainingField(item),
      Some(Text(item.status)),
      CountField(item.productionDays),
      Some(Text(TextOr(item.productionReady, ""))),
      Some(Text(item.client)),
      Some(Text(item.containerName)) ]
  }

  /** Only the columns without a fallback can come out as empty cells:
      Supplier, CBM, Cartons, Gross Weight, Product Cost, Remaining (when the
      product cost is missing too) and Production Days. */
  lemma OnlyUnguardedColumnsAreEmpty(item: LineItem, c: nat)
    requires c < |ListHeaders| && ListRow(item)[c].None?
    ensures c in {1, 2, 3, 4, 5, 8, 10}
    ensures c == RemainingCol ==> !NumTruthy(item.remaining) && item.productCost.None?
  {
  }

  /** Payment is always a number, the item's payment or 0. */
  lemma PaymentIsPaid(item: LineItem)
    ensures ListRow(item)[PaymentCol] == Some(Number(Paid(item)))
  {
  }

  /** An item with nothing paid and no recorded remaining amount shows its
      whole balance, the full product cost, as Remaining. */
  lemma UnpaidShowsBalance(item: LineItem)
    requires !NumTruthy(item.payment) && !NumTruthy(item.remaining) && item.productCost.Some?
    ensures ListRow(item)[RemainingCol] == Some(Number(Balance(item)))
  {
  }

  /** A remaining amount recorded as 0 is falsy, so the column falls back to
      the product cost rather than showing 0. */
  lemma ZeroRemainingShowsCost(item: LineItem)
    requires item.remaining == Some(0.0) && item.productCost.Some?
    ensures ListRow(item)[RemainingCol] == Some(Number(item.productCost.value))
    ensures item.productCost.value != 0.0 ==> ListRow(item)[RemainingCol] != Some(Number(0.0))
  {
  }

  const ListHeaderStyle := Style(true, "", 0, Unaligned, false, false, HeaderBlue, false, "")

  /** The exported workbook: a header row at row 1, one row per item, and the
      header cells restyled. */
  ghost predicate ListLayout(wb: Workbook, items: seq<LineItem>, date: string) {
    var g, n := wb.sheet.cells, |items|;
    && wb.fileName == "container-items-" + date + ".xlsx"
    && wb.sheetName == "Container Items"
    && wb.sheet.lastRow == n && wb.sheet.lastCol == JsonLastCol(ListHeaders, n)
    && wb.sheet.cols == [] && wb.sheet.merges == [] && wb.sheet.freezeRows == 0
    && (forall p: (nat, nat) :: p in g <==> n > 0 && p.0 <= n && p.1 < |ListHeaders|)
    && (forall c :: 0 <= c < |ListHeaders| && n > 0 ==> g[(0, c)] == Restyle(ValueCell(Text(ListHeaders[c])), ListHeaderStyle))
    && (forall i, c :: 0 <= i < n && 0 <= c < |ListHeaders| ==> g[(1 + i, c)] == JsonCell(ListRow(items[i])[c]))
  }

  function ListRows(items: seq<LineItem>): (rows: seq<seq<Option<Value>>>)
    ensures |rows| == |items|
    ensures forall i :: 0 <= i < |items| ==> rows[i] == ListRow(items[i])
  {
    seq(|items|, i requires 0 <= i < |items| => ListRow(items[i]))
  }

  /** The export button: nothing without a data source; otherwise the page's
      rows, even none, go to `container-items-{date}.xlsx`. */
  method ExportList(dataSource: Option<seq<LineItem>>, date: string) returns (wb: Option<Workbook>)
    ensures wb.None? <==> dataSource.None?
    ensures wb.Some? ==> ListLayout(wb.value, dataSource.value, date)
  {
    if dataSource.None? {
      return None;
    }
    var items := dataSource.value;
    var n := |items|;
    var ws := JsonToSheet(ListHeaders, ListRows(items), 0);
    var lastCol := JsonLastCol(ListHeaders, n);
    var styled := StyleExisting(ws, 0, 0, lastCol, ListHeaderStyle);
    forall i, c | 0 <= i < n && 0 <= c < |ListHeaders|
      ensures styled[(1 + i, c)] == JsonCell(ListRow(items[i])[c])
    {
      assert ws[(0 + 1 + i, c)] == JsonCell(ListRows(items)[i][c]);
      assert !InBlock((1 + i, c), 0, 0, lastCol);
    }
    wb := Some(Workbook("container-items-" + date + ".xlsx", "Container Items",
                        Worksheet(styled, n, lastCol, [], [], 0)));
  }
}
