/** The suppliers page's spreadsheet export and import: one row per supplier
    under thirteen headers, written with the shared table export, and read
    back by the same header names. */
module Suppliers {
  import opened Common
  import opened Records
  import opened Sheet
  import opened TableExport

  const SupplierHeaders: seq<string> := [
    "Reference Code", "Supplier", "Product", "Port", "Province", "Contact Person",
    "Email", "Phone", "Address", "Website", "Country", "Comments", "Active"]

  lemma SupplierHeadersDistinct()
    ensures forall i, j :: 0 <= i < j < |SupplierHeaders| ==> SupplierHeaders[i] != SupplierHeaders[j]
  {
  }

  /** `item.active ? "Yes" : "No"`. */
  function ActiveText(active: Option<bool>): string {
    if active == Some(true) then "Yes" else "No"
  }

  /** The exported object of one supplier, in header order; each optional
      text written as "" when missing. */
  function ExportRow(s: Supplier): (row: seq<Option<Value>>)
    ensures |row| == |SupplierHeaders|
  {
    [ Some(Text(s.referenceCode)),
      Some(Text(s.supplier)),
      Some(Text(TextOr(s.product, ""))),
      Some(Text(TextOr(s.port, ""))),
      Some(Text(TextOr(s.provinceState, ""))),
      Some(Text(TextOr(s.contactPerson, ""))),
      Some(Text(TextOr(s.email, ""))),
      Some(Text(TextOr(s.contactNumber, ""))),
      Some(Text(TextOr(s.address, ""))),
      Some(Text(TextOr(s.website, ""))),
      Some(Text(TextOr(s.countryRegion, ""))),
      Some(Text(TextOr(s.comments, ""))),
      Some(Text(ActiveText(s.active))) ]
  }

  function SupplierRows(suppliers: seq<Supplier>): (rows: seq<seq<Option<Value>>>)
    ensures |rows| == |suppliers|
    ensures forall i :: 0 <= i < |suppliers| ==> rows[i] == ExportRow(suppliers[i])
  {
    seq(|suppliers|, i requires 0 <= i < |suppliers| => ExportRow(suppliers[i]))
  }

  /** The export button: nothing on a fetch error or when there are no
      suppliers; otherwise every supplier goes to `Suppliers-{date}.xlsx`,
      sheet "Suppliers". */
  method ExportSuppliers(fetched: Fetch<Supplier>, date: string, show: real -> string)
    returns (wb: Option<Workbook>)
    ensures wb.None? <==> fetched.FetchError? || |fetched.rows| == 0
    ensures wb.Some? ==> TableLayout(wb.value, SupplierHeaders, SupplierRows(fetched.rows),
                                     "Suppliers-" + date + ".xlsx", "Suppliers", show)
  {
    if fetched.FetchError? || |fetched.rows| == 0 {
      return None;
    }
    var book := ExportTable(SupplierHeaders, SupplierRows(fetched.rows),
                            "Suppliers-" + date + ".xlsx", "Suppliers", show);
    return Some(book);
  }

  /** `row[key] || ""` on an object read from the sheet. */
  function TextAt(obj: map<string, string>, key: string): (r: string)
    ensures key in obj ==> r == obj[key]
    ensures key !in obj ==> r == ""
  {
    if key in obj then obj[key] else ""
  }

  /** The record the import makes of one sheet row: every text defaults to
      "", and the supplier is active exactly when the cell reads "Yes". */
  function ImportSupplier(obj: map<string, string>): Supplier {
    Supplier(
      TextAt(obj, "Reference Code"),
      TextAt(obj, "Supplier"),
      Some(TextAt(obj, "Product")),
      Some(TextAt(obj, "Country")),
      Some(TextAt(obj, "Province")),
      Some(TextAt(obj, "Port")),
      Some(TextAt(obj, "Contact Person")),
      Some(TextAt(obj, "Email")),
      Some(TextAt(obj, "Phone")),
      Some(TextAt(obj, "Website")),
      Some("Active" in obj && obj["Active"] == "Yes"),
      Some(TextAt(obj, "Comments")),
      Some(TextAt(obj, "Address")))
  }

  /** One record per sheet row, in order. */
  function ImportSuppliers(objs: seq<map<string, string>>): (items: seq<Supplier>)
    ensures |items| == |objs|
    ensures forall i :: 0 <= i < |objs| ==> items[i] == ImportSupplier(objs[i])
  {
    seq(|objs|, i requires 0 <= i < |objs| => ImportSupplier(objs[i]))
  }

  /** The import reads nothing but the exported header names: two rows that
      agree under every header import as the same supplier. */
  lemma ImportReadsOnlyHeaders(obj1: map<string, string>, obj2: map<string, string>)
    requires forall h :: h in SupplierHeaders ==> (h in obj1 <==> h in obj2) && (h in obj1 ==> obj1[h] == obj2[h])
    ensures ImportSupplier(obj1) == ImportSupplier(obj2)
  {
    assert SupplierHeaders[0] == "Reference Code" && SupplierHeaders[1] == "Supplier";
  }

  /** The flag comes back true exactly for the text "Yes"; any other text,
      or no cell, reads as inactive. */
  lemma ActiveOnlyForYes(obj: map<string, string>)
    ensures ImportSupplier(obj).active == Some(true) <==> "Active" in obj && obj["Active"] == "Yes"
    ensures ImportSupplier(obj).active.Some?
  {
  }

  /** What survives a trip through the sheet: each missing text becomes "",
      and a missing flag becomes false. */
  function Normalize(s: Supplier): Supplier {
    Supplier(
      s.referenceCode, s.supplier,
      Some(TextOr(s.product, "")), Some(TextOr(s.countryRegion, "")), Some(TextOr(s.provinceState, "")),
      Some(TextOr(s.port, "")), Some(TextOr(s.contactPerson, "")), Some(TextOr(s.email, "")),
      Some(TextOr(s.contactNumber, "")), Some(TextOr(s.website, "")),
      Some(s.active == Some(true)),
      Some(TextOr(s.comments, "")), Some(TextOr(s.address, "")))
  }

  /** An object holding each exported text under its header imports as the
      supplier, normalized. */
  lemma ImportOfTexts(s: Supplier, obj: map<string, string>)
    requires forall c :: 0 <= c < |SupplierHeaders| ==>
      SupplierHeaders[c] in obj && Some(Text(obj[SupplierHeaders[c]])) == ExportRow(s)[c]
    ensures ImportSupplier(obj) == Normalize(s)
  {
    var row := ExportRow(s);
    assert SupplierHeaders[0] in obj && Some(Text(obj[SupplierHeaders[0]])) == row[0];
    assert SupplierHeaders[1] in obj && Some(Text(obj[SupplierHeaders[1]])) == row[1];
    assert SupplierHeaders[2] in obj && Some(Text(obj[SupplierHeaders[2]])) == row[2];
    assert SupplierHeaders[3] in obj && Some(Text(obj[SupplierHeaders[3]])) == row[3];
    assert SupplierHeaders[4] in obj && Some(Text(obj[SupplierHeaders[4]])) == row[4];
    assert SupplierHeaders[5] in obj && Some(Text(obj[SupplierHeaders[5]])) == row[5];
    assert SupplierHeaders[6] in obj && Some(Text(obj[SupplierHeaders[6]])) == row[6];
    assert SupplierHeaders[7] in obj && Some(Text(obj[SupplierHeaders[7]])) == row[7];
    assert SupplierHeaders[8] in obj && Some(Text(obj[SupplierHeaders[8]])) == row[8];
    assert SupplierHeaders[9] in obj && Some(Text(obj[SupplierHeaders[9]])) == row[9];
    assert SupplierHeaders[10] in obj && Some(Text(obj[SupplierHeaders[10]])) == row[10];
    assert SupplierHeaders[11] in obj && Some(Text(obj[SupplierHeaders[11]])) == row[11];
    assert SupplierHeaders[12] in obj && Some(Text(obj[SupplierHeaders[12]])) == row[12];
  }

  /** Reading one exported row back gives the supplier, normalized. */
  lemma ImportOfExportedRow(s: Supplier)
    ensures ImportSupplier(RowObject(SupplierHeaders, ExportRow(s), |SupplierHeaders|)) == Normalize(s)
  {
    var row := ExportRow(s);
    var obj := RowObject(SupplierHeaders, row, |SupplierHeaders|);
    SupplierHeadersDistinct();
    forall c | 0 <= c < |SupplierHeaders|
      ensures SupplierHeaders[c] in obj && Some(Text(obj[SupplierHeaders[c]])) == row[c]
    {
      RowObjectAt(SupplierHeaders, row, |SupplierHeaders|, c);
    }
    ImportOfTexts(s, obj);
  }

  /** Export followed by import gives back every supplier, in order, with
      missing texts as "" and the active flag as a plain boolean. */
  lemma ExportThenImport(wb: Workbook, suppliers: seq<Supplier>, fileName: string, sheetName: string, show: real -> string)
    requires |suppliers| > 0
    requires TableLayout(wb, SupplierHeaders, SupplierRows(suppliers), fileName, sheetName, show)
    ensures var back := ImportSuppliers(SheetToJson(wb.sheet.cells, wb.sheet.lastRow, wb.sheet.lastCol + 1));
      |back| == |suppliers| && forall i :: 0 <= i < |suppliers| ==> back[i] == Normalize(suppliers[i])
  {
    var rows := SupplierRows(suppliers);
    ReadBack(wb.sheet.cells, SupplierHeaders, rows);
    forall i | 0 <= i < |suppliers|
      ensures ImportSupplier(RowObject(SupplierHeaders, rows[i], |SupplierHeaders|)) == Normalize(suppliers[i])
    {
      ImportOfExportedRow(suppliers[i]);
    }
  }

  /** A supplier that has been through the sheet once comes through a second
      time unchanged, and exports the same row as before. */
  lemma RoundTripIsStable(s: Supplier)
    ensures ExportRow(Normalize(s)) == ExportRow(s)
    ensures Normalize(Normalize(s)) == Normalize(s)
  {
  }
}
