/** The arrivals page: where a container is, judged from its PIRAEUS and
    PALEROS dates against today; the colours and the ARVD mark that status
    drives; and the spreadsheet export and import of the arrivals table. */
module Arrivals {
  import opened Common
  import opened Records
  import opened Sheet
  import opened TableExport

  datatype ArrivalStatus = NotArrived | AtPiraeus | AtWarehouse

  /** How far along a container is: 0, 1 or 2. */
  function Rank(st: ArrivalStatus): nat {
    match st
    case NotArrived => 0
    case AtPiraeus => 1
    case AtWarehouse => 2
  }

  /** A date field is present (not null, not "") and falls on or before
      today, compared by calendar day.  `dayOf` is the calendar-day number of
      a date text, `None` when the text is not a date (such a date is neither
      before nor the same as any day). */
  predicate Reached(date: Option<string>, dayOf: string -> Option<int>, today: int) {
    TextTruthy(date) && dayOf(date.value).Some? && dayOf(date.value).value <= today
  }

  /** `getArrivalStatus`: the warehouse date is checked first, then the port. */
  function Status(a: Arrival, dayOf: string -> Option<int>, today: int): ArrivalStatus {
    if Reached(a.paleros, dayOf, today) then AtWarehouse
    else if Reached(a.piraeus, dayOf, today) then AtPiraeus
    else NotArrived
  }

  /** A reached PALEROS date means the warehouse whatever PIRAEUS says; a
      PALEROS date still to come does not hide a reached PIRAEUS date; and a
      container is not arrived exactly when neither date is reached. */
  lemma StatusCases(a: Arrival, dayOf: string -> Option<int>, today: int)
    ensures Status(a, dayOf, today) == AtWarehouse <==> Reached(a.paleros, dayOf, today)
    ensures Status(a, dayOf, today) == AtPiraeus <==> !Reached(a.paleros, dayOf, today) && Reached(a.piraeus, dayOf, today)
    ensures Status(a, dayOf, today) == NotArrived <==> !Reached(a.paleros, dayOf, today) && !Reached(a.piraeus, dayOf, today)
  {
  }

  /** The comparison is inclusive: a date that is today counts as arrived. */
  lemma ArrivalDayCounts(a: Arrival, dayOf: string -> Option<int>, today: int)
    requires TextTruthy(a.piraeus) && dayOf(a.piraeus.value) == Some(today)
    ensures Status(a, dayOf, today) != NotArrived
  {
  }

  /** With both dates missing, or both after today, nothing has arrived. */
  lemma NoDateNoArrival(a: Arrival, dayOf: string -> Option<int>, today: int)
    requires !TextTruthy(a.piraeus) || (dayOf(a.piraeus.value).Some? && dayOf(a.piraeus.value).value > today)
    requires !TextTruthy(a.paleros) || (dayOf(a.paleros.value).Some? && dayOf(a.paleros.value).value > today)
    ensures Status(a, dayOf, today) == NotArrived
  {
  }

  /** As days pass a container only moves forward. */
  lemma StatusNeverGoesBack(a: Arrival, dayOf: string -> Option<int>, earlier: int, later: int)
    requires earlier <= later
    ensures Rank(Status(a, dayOf, earlier)) <= Rank(Status(a, dayOf, later))
  {
  }

  /** The columns whose text colour follows the status. */
  datatype Column = CodeColumn | EtdColumn | PiraeusColumn | PalerosColumn | ArvdColumn

  const Green := "#10b981"
  const Yellow := "#fbbf24"

  /** The colour of a not-arrived container in each column. */
  function WaitingColor(col: Column): string {
    match col
    case CodeColumn => "#60a5fa"
    case EtdColumn => "#d1d5db"
    case PiraeusColumn => "#ef4444"
    case PalerosColumn => "#ef4444"
    case ArvdColumn => "#374151"
  }

  /** Text colour of a column for a status: green at the warehouse, yellow at
      Piraeus, the column's own colour otherwise. */
  function ColorOf(st: ArrivalStatus, col: Column): string {
    if st == AtWarehouse then Green
    else if st == AtPiraeus then Yellow
    else WaitingColor(col)
  }

  /** In every column the colour tells the three statuses apart, so it is a
      faithful picture of the status and nothing else. */
  lemma ColorShowsStatus(s1: ArrivalStatus, s2: ArrivalStatus, col: Column)
    ensures ColorOf(s1, col) == ColorOf(s2, col) <==> s1 == s2
  {
  }

  const Check := "\U{2713}"
  const Dash := "-"

  /** The ARVD mark on screen. */
  function ScreenSymbol(st: ArrivalStatus): string {
    if st == AtWarehouse then Check else if st == AtPiraeus then Check else Dash
  }

  /** The ARVD text of the export, worked out again from the two dates. */
  function ArvdText(a: Arrival, dayOf: string -> Option<int>, today: int): string {
    if Reached(a.paleros, dayOf, today) then Check
    else if Reached(a.piraeus, dayOf, today) then Check
    else Dash
  }

  /** The exported mark is the mark on screen, a check exactly when the
      container has arrived somewhere. */
  lemma ExportedMarkIsScreenMark(a: Arrival, dayOf: string -> Option<int>, today: int)
    ensures ArvdText(a, dayOf, today) == ScreenSymbol(Status(a, dayOf, today))
    ensures ArvdText(a, dayOf, today) == Check <==> Status(a, dayOf, today) != NotArrived
  {
  }

  const ArrivalHeaders: seq<string> := [
    "Container Code", "Departure Port", "B/L", "REF", "ETD", "PIRAEUS", "PALEROS", "ARVD"]

  lemma ArrivalHeadersDistinct()
    ensures forall i, j :: 0 <= i < j < |ArrivalHeaders| ==> ArrivalHeaders[i] != ArrivalHeaders[j]
  {
  }

  /** The exported object of one arrival, in header order: every missing
      text written as "", the ARVD mark last. */
  function ExportRow(a: Arrival, dayOf: string -> Option<int>, today: int): (row: seq<Option<Value>>)
    ensures |row| == |ArrivalHeaders|
  {
    [ Some(Text(a.containerCode)),
      Some(Text(TextOr(a.departurePort, ""))),
      Some(Text(TextOr(a.bl, ""))),
      Some(Text(TextOr(a.reference, ""))),
      Some(Text(TextOr(a.etd, ""))),
      Some(Text(TextOr(a.piraeus, ""))),
      Some(Text(TextOr(a.paleros, ""))),
      Some(Text(ArvdText(a, dayOf, today))) ]
  }

  function ArrivalRows(arrivals: seq<Arrival>, dayOf: string -> Option<int>, today: int): (rows: seq<seq<Option<Value>>>)
    ensures |rows| == |arrivals|
    ensures forall i :: 0 <= i < |arrivals| ==> rows[i] == ExportRow(arrivals[i], dayOf, today)
  {
    seq(|arrivals|, i requires 0 <= i < |arrivals| => ExportRow(arrivals[i], dayOf, today))
  }

  /** The export button: nothing on a fetch error or when there are no
      arrivals; otherwise the shared table export of every arrival to
      `Arrivals-{date}.xlsx`, sheet "Arrivals". */
  method ExportArrivals(
    fetched: Fetch<Arrival>, date: string, dayOf: string -> Option<int>, today: int, show: real -> string)
    returns (wb: Option<Workbook>)
    ensures wb.None? <==> fetched.FetchError? || |fetched.rows| == 0
    ensures wb.Some? ==> TableLayout(wb.value, ArrivalHeaders, ArrivalRows(fetched.rows, dayOf, today),
                                     "Arrivals-" + date + ".xlsx", "Arrivals", show)
  {
    if fetched.FetchError? || |fetched.rows| == 0 {
      return None;
    }
    var book := ExportTable(ArrivalHeaders, ArrivalRows(fetched.rows, dayOf, today),
                            "Arrivals-" + date + ".xlsx", "Arrivals", show);
    return Some(book);
  }

  /** `row[key] || null` on an object read from the sheet. */
  function Field(obj: map<string, string>, key: string): (r: Option<string>)
    ensures r.Some? <==> key in obj && obj[key] != ""
    ensures r.Some? ==> r.value == obj[key]
  {
    if key in obj && obj[key] != "" then Some(obj[key]) else None
  }

  /** The record the import makes of one sheet row; the code defaults to "",
      the other fields to null, and there is no ETA column to read. */
  function ImportArrival(obj: map<string, string>): Arrival {
    Arrival(
      if "Container Code" in obj then obj["Container Code"] else "",
      Field(obj, "Departure Port"),
      Field(obj, "B/L"),
      Field(obj, "REF"),
      Field(obj, "ETD"),
      None,
      Field(obj, "PIRAEUS"),
      Field(obj, "PALEROS"))
  }

  /** One record per sheet row, in order. */
  function ImportArrivals(objs: seq<map<string, string>>): (items: seq<Arrival>)
    ensures |items| == |objs|
    ensures forall i :: 0 <= i < |objs| ==> items[i] == ImportArrival(objs[i])
  {
    seq(|objs|, i requires 0 <= i < |objs| => ImportArrival(objs[i]))
  }

  /** An empty text stored as null. */
  function Blanked(s: Option<string>): (r: Option<string>)
    ensures TextTruthy(s) ==> r == s
    ensures !TextTruthy(s) ==> r.None?
  {
    if TextTruthy(s) then s else None
  }

  /** What survives a trip through the sheet: the code, and each text field
      with "" turned into null; the ETA is not exported and comes back null. */
  function Normalize(a: Arrival): Arrival {
    Arrival(a.containerCode, Blanked(a.departurePort), Blanked(a.bl), Blanked(a.reference),
            Blanked(a.etd), None, Blanked(a.piraeus), Blanked(a.paleros))
  }

  /** An object holding each exported text under its header imports as the
      arrival, normalized. */
  lemma ImportOfTexts(a: Arrival, dayOf: string -> Option<int>, today: int, obj: map<string, string>)
    requires forall c :: 0 <= c < |ArrivalHeaders| ==>
      ArrivalHeaders[c] in obj && Some(Text(obj[ArrivalHeaders[c]])) == ExportRow(a, dayOf, today)[c]
    ensures ImportArrival(obj) == Normalize(a)
  {
    var row := ExportRow(a, dayOf, today);
    assert ArrivalHeaders[0] in obj && Some(Text(obj[ArrivalHeaders[0]])) == row[0];
    assert ArrivalHeaders[1] in obj && Some(Text(obj[ArrivalHeaders[1]])) == row[1];
    assert ArrivalHeaders[2] in obj && Some(Text(obj[ArrivalHeaders[2]])) == row[2];
    assert ArrivalHeaders[3] in obj && Some(Text(obj[ArrivalHeaders[3]])) == row[3];
    assert ArrivalHeaders[4] in obj && Some(Text(obj[ArrivalHeaders[4]])) == row[4];
    assert ArrivalHeaders[5] in obj && Some(Text(obj[ArrivalHeaders[5]])) == row[5];
    assert ArrivalHeaders[6] in obj && Some(Text(obj[ArrivalHeaders[6]])) == row[6];
  }

  /** Reading one exported row back gives the arrival, normalized. */
  lemma ImportOfExportedRow(a: Arrival, dayOf: string -> Option<int>, today: int)
    ensures ImportArrival(RowObject(ArrivalHeaders, ExportRow(a, dayOf, today), |ArrivalHeaders|)) == Normalize(a)
  {
    var row := ExportRow(a, dayOf, today);
    var obj := RowObject(ArrivalHeaders, row, |ArrivalHeaders|);
    ArrivalHeadersDistinct();
    forall c | 0 <= c < |ArrivalHeaders|
      ensures ArrivalHeaders[c] in obj && Some(Text(obj[ArrivalHeaders[c]])) == row[c]
    {
      RowObjectAt(ArrivalHeaders, row, |ArrivalHeaders|, c);
    }
    ImportOfTexts(a, dayOf, today, obj);
  }

  /** Export followed by import of the whole table gives back every arrival,
      in order, with its empty texts as null and no ETA. */
  lemma ExportThenImport(
    wb: Workbook, arrivals: seq<Arrival>, dayOf: string -> Option<int>, today: int,
    fileName: string, sheetName: string, show: real -> string)
    requires |arrivals| > 0
    requires TableLayout(wb, ArrivalHeaders, ArrivalRows(arrivals, dayOf, today), fileName, sheetName, show)
    ensures var back := ImportArrivals(SheetToJson(wb.sheet.cells, wb.sheet.lastRow, wb.sheet.lastCol + 1));
      |back| == |arrivals| && forall i :: 0 <= i < |arrivals| ==> back[i] == Normalize(arrivals[i])
  {
    var rows := ArrivalRows(arrivals, dayOf, today);
    ReadBack(wb.sheet.cells, ArrivalHeaders, rows);
    forall i | 0 <= i < |arrivals|
      ensures ImportArrival(RowObject(ArrivalHeaders, rows[i], |ArrivalHeaders|)) == Normalize(arrivals[i])
    {
      ImportOfExportedRow(arrivals[i], dayOf, today);
    }
  }

  /** Exporting the re-imported arrival writes the same row again: a second
      round trip changes nothing. */
  lemma ReexportIsStable(a: Arrival, dayOf: string -> Option<int>, today: int)
    ensures ExportRow(Normalize(a), dayOf, today) == ExportRow(a, dayOf, today)
    ensures Normalize(Normalize(a)) == Normalize(a)
  {
  }
}
