# Container planning dashboard: the logic behind the pages

The dashboard keeps four tables in a hosted database: container line items,
suppliers, arrivals and the "ENTYPO PARALAVIS" pricing sheet. Most of its
pages only bind those tables to forms. The behaviour worth stating lives in
five places, and this project models each of them in Dafny and proves what
it promises:

- **Container metrics** (`ContainerStats`). These are the figures above the
  container items table: total CBM, CBM ready to ship, CBM awaiting
  supplier, the need-payment count, total product cost, payments,
  remaining to pay, cartons and gross weight.
- **Container items export** (`ContainerExport`, `ContainerList`).
  - The styled export places a summary box of four SUM/SUMIF formulas
    above the table. The table starts at A6, column G holds one
    Remaining formula per row, columns are autosized, the header is grey
    and rows are banded. Rows 1-5 are frozen: the summary box and the
    blank row stay in view, while the header on row 6 scrolls with the
    data.
  - The plain export of the list page.
  - The central result, `ContainerExport.SummaryAgreesWithStats`, says
    that whatever values a spreadsheet gives the cells, consistently with
    their contents and formulas, B1..B4 show exactly the page's Total CBM,
    Total Product Cost, CBM Ready to Ship and Remaining to Pay for the
    exported items. `ContainerExport.ExportValuationConsistent` shows that such
    values exist for every exported sheet, so the result is not vacuous.
- **Arrivals** (`Arrivals`). A container's status is worked out from its
  PIRAEUS and PALEROS dates against today. That status drives the ARVD
  mark and the colours. The page also has a spreadsheet export and import,
  and export followed by import is proved to round-trip.
- **Suppliers** (`Suppliers`). The spreadsheet export and import, with the
  same round trip. `TableExport` holds the export steps that suppliers and
  arrivals share: autosize, header style and banding. It also models
  `sheet_to_json`, which reads the table back.
- **Pricing sheet** (`Paralavis`).
  - The export writes:
    - a fixed three-row header;
    - 32 merges;
    - one 37-cell row per record, holding the cost-cascade and price
      formulas;
    - the header style, banding and fixed widths.
  - What each formula computes is proved under any consistent valuation.
    `Paralavis.PricingValuationConsistent` shows that every exported
    pricing sheet has such a valuation: the one that computes each row left
    to right.
  - The rule that numbers a newly added row. The page numbers it past the
    rows it has loaded, which is one page of the table; see "Findings".
- **Charts** (`Charts`). The line items are grouped by container, status,
  supplier prefix and client. The group-by loops are proved against
  reference definitions. The supplier list is cut to the ten largest groups
  and the client list to the five largest, and no group left out is larger
  than the smallest one kept.

`Sheet` is the worksheet model. It holds:

- a map from 0-based (row, column) to cells;
- cells holding a value, a formula and a style;
- a formula datatype with the A1 text the exports write (`Render`) and its
  spreadsheet meaning (`Eval`, `Consistent`);
- the autosize, header-style and banding loops as methods.

Three things the code reads from its environment are parameters:

- `show`: JavaScript's rendering of a number as text, which the autosize
  loop measures;
- `fmt`: the "20NOV25" date formatting;
- `dayOf`: the calendar day a date text names.

The current date is a parameter too: `today` as a day number, `date` as the
ISO text in file names. A database read is an input of type `Fetch`: an
error, or the rows.

## Model

| member | source | states |
|---|---|---|
| ContainerStats.Stats | src/pages/container-items/ListWithStats.tsx:120-164 | the `stats` memo: the nine figures over the items given; its properties are stated by ReadySplit, AwaitingIsEveryNonReadyItem, RemainingIsSumOfBalances, NeedPaymentCountsOwingItems, EmptyListHasZeroMetrics and StatsOfConcatenation |
| ContainerStats.FilterMembers | src/pages/container-items/ListWithStats.tsx:126-128 | a filter keeps exactly the items that pass its test |
| ContainerStats.TotalSnoc | src/pages/container-items/ListWithStats.tsx:124 | a `reduce` sum adds the last item's field to the sum of the items before it |
| ContainerStats.TotalAppend | src/pages/container-items/ListWithStats.tsx:124 | a field's sum over two lists together is the sum of the two sums |
| ContainerStats.FilterAppend | src/pages/container-items/ListWithStats.tsx:126-128 | filtering two lists together gives the two filtered lists, in order |
| ContainerStats.ReadySplit | src/pages/container-items/ListWithStats.tsx:124-131 | the CBM of ready items plus the CBM of all other items is the total CBM |
| ContainerStats.AwaitingIsEveryNonReadyItem | src/pages/container-items/ListWithStats.tsx:124-131 | CBM awaiting supplier is the CBM of every item not READY TO SHIP, whatever its status, and ready plus awaiting is the total |
| ContainerStats.RemainingIsSumOfBalances | src/pages/container-items/ListWithStats.tsx:140-148 | remaining to pay is total cost minus payments, and equals the sum of the per-item balances |
| ContainerStats.NeedPaymentCountsOwingItems | src/pages/container-items/ListWithStats.tsx:133-138 | the count lies between 0 and the item count; every counted item has payment < cost; an item paid in full is never counted; counted plus settled items make up the list |
| ContainerStats.EmptyListHasZeroMetrics | src/pages/container-items/ListWithStats.tsx:120-163 | with no items every metric is 0 |
| ContainerStats.StatsOfConcatenation | src/pages/container-items/ListWithStats.tsx:120-163 | each metric of two lists together is the sum of the two lists' metrics |
| ContainerStats.TwoItemScenario | src/pages/container-items/ListWithStats.tsx:120-163 | a worked two-item example: totals 15 CBM, 10 ready, 5 awaiting, cost 150, paid 90, remaining 60, one item needing payment |
| ContainerExport.SupplierMap | src/pages/container-items/ListWithStats.tsx:74-79 | the supplier lookup has exactly the fetched codes as keys, each mapped to a fetched supplier with that code |
| ContainerExport.SupplierMapLastWins | src/pages/container-items/ListWithStats.tsx:76-78 | a supplier is the one found under its code unless a later row has the same code |
| ContainerExport.ProductDisplay | src/pages/container-items/ListWithStats.tsx:199-206 | PRODUCT is the code alone when there is no product; the upper-cased product when that already starts with the code; otherwise code, a space and the upper-cased product. In every case it starts with the code and ends with the upper-cased product when there is one |
| ContainerExport.ExportRow | src/pages/container-items/ListWithStats.tsx:197-225 | an exported row has the 17 header fields; CODE is the reference code, PRODUCT is the PRODUCT text of that code and its supplier's product, CBM, STATUS and PRODUCT COST are the item's, and PAYMENT is the payment or 0 |
| ContainerExport.ExportRows | src/pages/container-items/ListWithStats.tsx:197-226 | one exported row per item, in order |
| ContainerExport.DataColumnText | src/pages/container-items/ListWithStats.tsx:232-233 | a data column range is written `{col}7:{col}{6+n}` |
| ContainerExport.SumText | src/pages/container-items/ListWithStats.tsx:245 | a SUM over a data column is written `SUM({col}7:{col}{6+n})` |
| ContainerExport.SummaryFormulaTexts | src/pages/container-items/ListWithStats.tsx:232-287 | B1..B4 hold the texts `SUM(C7:C{6+n})`, `SUM(E7:E{6+n})`, `SUMIF(D7:D{6+n},"READY TO SHIP",C7:C{6+n})` and `SUM(G7:G{6+n})` |
| ContainerExport.RemainingFormulaText | src/pages/container-items/ListWithStats.tsx:299-302 | the Remaining formula of 1-based row R is written `E{R}-F{R}` |
| ContainerExport.WriteRemaining | src/pages/container-items/ListWithStats.tsx:297-302 | the loop gives each data row of column G, and no other cell, the formula product cost minus payment of its own row; every other cell is unchanged |
| ContainerExport.SummaryBoxKeys | src/pages/container-items/ListWithStats.tsx:229-292 | after `json_to_sheet` at A6 and the summary assignments, the cells are A1:B4 plus the table, and the box holds its labels and formulas |
| ContainerExport.JsonHeader | src/pages/container-items/ListWithStats.tsx:229 | row 6 holds the 17 header titles |
| ContainerExport.JsonBodyCell | src/pages/container-items/ListWithStats.tsx:229 | each data cell outside column G holds its exported field |
| ContainerExport.JsonBody | src/pages/container-items/ListWithStats.tsx:229 | the data rows hold the exported items, row i+7 holding item i |
| ContainerExport.RemainingPass | src/pages/container-items/ListWithStats.tsx:297-302 | after the formula loop the sheet is the full unstyled layout, with column G filled |
| ContainerExport.HeaderPass | src/pages/container-items/ListWithStats.tsx:331-341 | the header loop styles the existing row-6 cells grey and changes nothing else |
| ContainerExport.BandPass | src/pages/container-items/ListWithStats.tsx:343-354 | after banding every data cell exists, row 7+i is light blue when i is even and white otherwise, rows 1-6 are untouched, and no value changes |
| ContainerExport.BandedBodyCell | src/pages/container-items/ListWithStats.tsx:344-353 | a banded data cell is its unstyled cell with its row's band |
| ContainerExport.FillSheet | src/pages/container-items/ListWithStats.tsx:228-302 | the filled sheet has the summary box, header, rows and Remaining formulas, and nothing else |
| ContainerExport.StyleSheet | src/pages/container-items/ListWithStats.tsx:331-354 | styling keeps the set of cells and every value, and gives the header and data rows their styles |
| ContainerExport.ExportContainer | src/pages/container-items/ListWithStats.tsx:167-364 | no workbook on a fetch error or empty result; otherwise `{container}-{date}.xlsx` with the full styled layout, the first five rows frozen, and each width the autosized width of its column in the final sheet |
| ContainerExport.ColumnTotal | src/pages/container-items/ListWithStats.tsx:245 | a SUM over a data column adds up one field of the exported items, row by row |
| ContainerExport.ReadyColumnTotal | src/pages/container-items/ListWithStats.tsx:273 | the SUMIF over STATUS adds up the CBM of exactly the ready items |
| ContainerExport.ReadyRowStep | src/pages/container-items/ListWithStats.tsx:273 | one more data row adds its CBM to the SUMIF exactly when its status is READY TO SHIP |
| ContainerExport.RowTerms | src/pages/container-items/ListWithStats.tsx:207-214 | under a consistent valuation, a data row contributes its CBM, its cost and its balance (through the Remaining formula), and its status cell matches the SUMIF test exactly when the item is ready |
| ContainerExport.BoxValue | src/pages/container-items/ListWithStats.tsx:245-287 | under a consistent valuation a summary cell's value is what its formula computes |
| ContainerExport.FrozenRowsAreAboveHeader | src/pages/container-items/ListWithStats.tsx:321 | `ySplit: 5` freezes exactly the rows above the header, which hold only the summary box A1:B4 and a blank row; the header on row 6 is not frozen |
| ContainerExport.SummaryAgreesWithStats | src/pages/container-items/ListWithStats.tsx:232-302 | under any consistent valuation B1..B4 equal the page's Total CBM, Total Product Cost, CBM Ready to Ship and Remaining to Pay over the exported items |
| ContainerExport.SummaryFigures | src/pages/container-items/ListWithStats.tsx:238-292 | the four summary values, given the per-row facts |
| ContainerExport.DataValueCell | src/pages/container-items/ListWithStats.tsx:207-229 | a data cell outside column G holds its exported field with no formula, and agrees with the export valuation |
| ContainerExport.RemainingCellAgrees | src/pages/container-items/ListWithStats.tsx:297-302 | each Remaining formula computes its row's balance, product cost minus payment, under the export valuation |
| ContainerExport.ExportValuationRow | src/pages/container-items/ListWithStats.tsx:207-302 | every cell of a data row agrees with the export valuation |
| ContainerExport.ExportValuationRowFacts | src/pages/container-items/ListWithStats.tsx:207-302 | under the export valuation each data row contributes its CBM, cost, balance and status to the summary formulas |
| ContainerExport.ColumnSum | src/pages/container-items/ListWithStats.tsx:245 | a SUM over one data column is the sum of that column's rows |
| ContainerExport.ExportValuationBox | src/pages/container-items/ListWithStats.tsx:238-292 | under the export valuation B1..B4 compute the page's Total CBM, Total Product Cost, CBM Ready to Ship and Remaining to Pay |
| ContainerExport.ExportValuationConsistent | src/pages/container-items/ListWithStats.tsx:229-302 | every exported container sheet has a consistent valuation, so the premise of SummaryAgreesWithStats can be met |
| ContainerList.ListRow | src/pages/container-items/List.tsx:42-57 | the 14-key object exported for one item, one field per header; its properties are stated by ListRows, OnlyUnguardedColumnsAreEmpty, PaymentIsPaid, UnpaidShowsBalance and ZeroRemainingShowsCost |
| ContainerList.ListRows | src/pages/container-items/List.tsx:42-57 | one exported row per item, in order |
| ContainerList.OnlyUnguardedColumnsAreEmpty | src/pages/container-items/List.tsx:42-57 | only columns without a `\|\|` fallback can be empty; Remaining is empty only when both remaining and product cost are missing |
| ContainerList.PaymentIsPaid | src/pages/container-items/List.tsx:50 | Payment is always a number: the payment, or 0 |
| ContainerList.UnpaidShowsBalance | src/pages/container-items/List.tsx:51 | with no payment and no recorded remaining, Remaining shows the whole balance |
| ContainerList.ZeroRemainingShowsCost | src/pages/container-items/List.tsx:51 | a remaining of 0 is falsy, so the product cost is shown instead, never 0 unless the cost is 0 |
| ContainerList.ExportList | src/pages/container-items/List.tsx:38-75 | no file without a data source; otherwise `container-items-{date}.xlsx` with the header and one row per item, and only existing header cells styled bold on blue |
| Sheet.JsonToSheet | src/pages/container-items/List.tsx:59 | the assumed `json_to_sheet` layout: a header row at the origin, object i on the row below plus i, a stub cell for a null field, nothing else |
| Sheet.ColIndexOfColName | src/pages/container-items/ListWithStats.tsx:300 | the column letters written for a column name that column back |
| Sheet.AddressInjective | src/pages/container-items/ListWithStats.tsx:300 | distinct cells have distinct A1 addresses |
| Common.NatStrInjective | src/pages/container-items/ListWithStats.tsx:301 | distinct row numbers are written as distinct decimal texts |
| Common.Upper | src/pages/container-items/ListWithStats.tsx:201 | upper-casing keeps the length and maps each character to its upper case |
| Sheet.WidthCoversCells | src/pages/container-items/ListWithStats.tsx:305-318 | each autosized width is at least length + 2 of every truthy cell in its column |
| Sheet.WidthIsAttained | src/pages/container-items/ListWithStats.tsx:305-318 | each width is 10 or exactly length + 2 of some truthy cell of its column |
| Sheet.WidthsAgree | src/pages/container-items/ListWithStats.tsx:305-318 | widths depend only on the truthy values, so styling and blank cells do not change them |
| Sheet.AutoWidths | src/pages/suppliers/List.tsx:97-110 | the nested loop yields one width per column, equal to the max-fold from 10 over that column's cells |
| Sheet.StyleExisting | src/pages/suppliers/List.tsx:124-133 | every existing cell of the block gets the style, missing cells stay missing, and cells outside the block are unchanged |
| Sheet.Band | src/pages/suppliers/List.tsx:136-146 | every cell of the block exists afterwards with its row's band, a missing one created blank; nothing outside the block changes |
| TableExport.JsonTable | src/pages/arrivals/List.tsx:100 | `json_to_sheet` at A1 gives the header in row 1 and row i+2 holding object i |
| TableExport.StyledTable | src/pages/arrivals/List.tsx:132-155 | after the header and banding loops the header is white on blue, row R is light blue when R-1 is even, and no value has changed |
| TableExport.ExportTable | src/pages/arrivals/List.tsx:100-162 | the shared export: the table at A1, widths of the final sheet, header frozen, header styled, rows banded, nothing else |
| TableExport.RowObjectAt | src/pages/arrivals/List.tsx:171 | with distinct headers, the object of a row holds each text cell under its column's header, and no key for a non-text cell |
| TableExport.RowObjectMissing | src/pages/arrivals/List.tsx:171 | a key that is no header is not in a row's object |
| TableExport.HeaderBack | src/pages/arrivals/List.tsx:171 | the header texts read back are the exported headers |
| TableExport.RowBack | src/pages/arrivals/List.tsx:171 | the values read back from row i+2 are exported row i |
| TableExport.ReadBack | src/pages/arrivals/List.tsx:168-171 | reading the exported table back gives one object per exported row, in order, each holding that row's text fields under their headers |
| Arrivals.Status | src/pages/arrivals/List.tsx:243-263 | `getArrivalStatus`: the PALEROS date is checked first, then PIRAEUS, each reached when its day is not after today; its properties are stated by StatusCases, ArrivalDayCounts, NoDateNoArrival and StatusNeverGoesBack |
| Arrivals.StatusCases | src/pages/arrivals/List.tsx:243-263 | at the warehouse iff PALEROS is reached; at Piraeus iff PALEROS is not reached and PIRAEUS is; not arrived iff neither is reached |
| Arrivals.ArrivalDayCounts | src/pages/arrivals/List.tsx:257 | a PIRAEUS date that is today counts as arrived |
| Arrivals.NoDateNoArrival | src/pages/arrivals/List.tsx:243-263 | with both dates missing or after today, the status is not arrived |
| Arrivals.StatusNeverGoesBack | src/pages/arrivals/List.tsx:243-263 | as today advances, the status never moves back |
| Arrivals.ColorOf | src/pages/arrivals/List.tsx:442-577 | the text colour of a column: green at the warehouse, yellow at Piraeus, the column's own colour otherwise; ColorShowsStatus states that it tells the statuses apart |
| Arrivals.ColorShowsStatus | src/pages/arrivals/List.tsx:442-577 | in each column two statuses get the same colour iff they are the same status |
| Arrivals.ExportedMarkIsScreenMark | src/pages/arrivals/List.tsx:76-86 | the exported ARVD mark is the on-screen mark, a check exactly when the status is not not-arrived |
| Arrivals.ArrivalHeadersDistinct | src/pages/arrivals/List.tsx:88-97 | the eight export headers are distinct |
| Arrivals.ExportRow | src/pages/arrivals/List.tsx:88-97 | the exported object of one arrival, one field per header, missing texts as "" and the ARVD mark last; its properties are stated by ExportedMarkIsScreenMark, ArrivalRows and ExportThenImport |
| Arrivals.ArrivalRows | src/pages/arrivals/List.tsx:76-98 | one exported row per arrival, in order |
| Arrivals.ExportArrivals | src/pages/arrivals/List.tsx:59-163 | no workbook on a fetch error or when there are no arrivals; otherwise the shared table export to `Arrivals-{date}.xlsx`, sheet "Arrivals" |
| Arrivals.Field | src/pages/arrivals/List.tsx:175-180 | `row[key] \|\| null`: present exactly when the key holds a non-empty text, and then that text |
| Arrivals.ImportArrival | src/pages/arrivals/List.tsx:173-181 | the record the import makes of one sheet row: the code or "", every other read field or null, and no ETA; its properties are stated by ImportOfTexts, ImportOfExportedRow and ExportThenImport |
| Arrivals.ImportArrivals | src/pages/arrivals/List.tsx:173-181 | one record per sheet row, in order |
| Arrivals.Blanked | src/pages/arrivals/List.tsx:90-95 | a non-empty text is kept and an empty or missing one becomes null |
| Arrivals.ImportOfTexts | src/pages/arrivals/List.tsx:173-181 | an object holding each exported text under its header imports as the arrival with its empty texts as null |
| Arrivals.ImportOfExportedRow | src/pages/arrivals/List.tsx:173-181 | reading one exported row back gives the normalized arrival |
| Arrivals.ExportThenImport | src/pages/arrivals/List.tsx:88-181 | export followed by import gives back every arrival, in order, with empty texts as null and no ETA |
| Arrivals.ReexportIsStable | src/pages/arrivals/List.tsx:88-97 | a normalized arrival exports the same row, and normalizing twice changes nothing |
| Suppliers.SupplierHeadersDistinct | src/pages/suppliers/List.tsx:74-88 | the thirteen export headers are distinct |
| Suppliers.ExportRow | src/pages/suppliers/List.tsx:74-88 | the exported object of one supplier, one field per header, missing texts as "" and active as Yes or No; its properties are stated by SupplierRows and ExportThenImport |
| Suppliers.SupplierRows | src/pages/suppliers/List.tsx:74-88 | one exported row per supplier, in order |
| Suppliers.ExportSuppliers | src/pages/suppliers/List.tsx:56-156 | no workbook on a fetch error or with no suppliers; otherwise the shared table export to `Suppliers-{date}.xlsx`, sheet "Suppliers" |
| Suppliers.TextAt | src/pages/suppliers/List.tsx:168-179 | `row[key] \|\| ""`: the text under the key, or "" when there is none |
| Suppliers.ImportSupplier | src/pages/suppliers/List.tsx:167-181 | the record the import makes of one sheet row, every text defaulting to ""; its properties are stated by ImportReadsOnlyHeaders, ActiveOnlyForYes, ImportOfTexts and ExportThenImport |
| Suppliers.ImportSuppliers | src/pages/suppliers/List.tsx:167-181 | one record per sheet row, in order |
| Suppliers.ImportReadsOnlyHeaders | src/pages/suppliers/List.tsx:167-181 | two rows that agree under every export header import as the same supplier |
| Suppliers.ActiveOnlyForYes | src/pages/suppliers/List.tsx:180 | active is always set, and true iff the cell is exactly "Yes" |
| Suppliers.ImportOfTexts | src/pages/suppliers/List.tsx:167-181 | an object holding each exported text under its header imports as the supplier, normalized |
| Suppliers.ImportOfExportedRow | src/pages/suppliers/List.tsx:167-181 | reading one exported row back gives the normalized supplier |
| Suppliers.ExportThenImport | src/pages/suppliers/List.tsx:74-181 | export followed by import gives back every supplier, in order, with missing texts as "" and active as a plain boolean |
| Suppliers.RoundTripIsStable | src/pages/suppliers/List.tsx:74-88 | a normalized supplier exports the same row, and normalizing twice changes nothing |
| Paralavis.WriteHeader | src/pages/entypo-paralavis/List.tsx:180-280 | the header is exactly the row-1 titles and every column of rows 2 and 3, each cell a text cell with its label |
| Paralavis.MergesInHeader | src/pages/entypo-paralavis/List.tsx:282-316 | 32 well-formed merges, all in rows 1-3 and columns A..AK; T1:W1 and W1:W3 share W1 |
| Paralavis.Formula | src/pages/entypo-paralavis/List.tsx:363-381 | the formula of each formula column of a record row; its properties are stated by FormulaReferences, CascadeTexts, MultiplierTexts, AromaTexts and CascadeSteps |
| Paralavis.FormulaReferences | src/pages/entypo-paralavis/List.tsx:361-381 | each formula reads only cells of its own row to its left, or the multipliers AC3..AG3; AC..AF read AB and their own row-3 cell; AH reads N and AG3 |
| Paralavis.CascadeTexts | src/pages/entypo-paralavis/List.tsx:362-368 | W..AB of row R are written `T{R}*U{R}`, `0.47*F{R}`, `W{R}+X{R}`, `Y{R}*F{R}`, `Z{R}*0.24`, `Z{R}+AA{R}` |
| Paralavis.MultiplierTexts | src/pages/entypo-paralavis/List.tsx:370-374 | AC..AF of row R are written `AB{R}*AC3` .. `AB{R}*AF3` |
| Paralavis.AromaTexts | src/pages/entypo-paralavis/List.tsx:376-381 | AH, AI and AK are written `N{R}*AG3`, `AH{R}/1.24` and `(AJ{R}-AI{R})/AI{R}` |
| Paralavis.TextCell | src/pages/entypo-paralavis/List.tsx:182 | a text cell holds the text, no formula, type 's' |
| Paralavis.NumberOrBlank | src/pages/entypo-paralavis/List.tsx:333 | a present non-zero number is written as a number, and anything else as the empty text |
| Paralavis.NumberOr | src/pages/entypo-paralavis/List.tsx:358 | a present non-zero number is written as is, and anything else as the default |
| Paralavis.RowCell | src/pages/entypo-paralavis/List.tsx:320-382 | formula columns hold their column's formula for the row; the other columns hold a value and no formula, present in every column but A |
| Paralavis.Defaults | src/pages/entypo-paralavis/List.tsx:333-380 | missing numbers in F, N, O, Q, R, S, T and AJ are written as empty text; U and V default to 1.09 and AG to 4.5 |
| Paralavis.RowMap | src/pages/entypo-paralavis/List.tsx:320-382 | a record's cells are exactly the 37 cells of its row |
| Paralavis.WriteRowStep | src/pages/entypo-paralavis/List.tsx:320-382 | writing record i's row keeps the header and the earlier rows, and adds row 4+i |
| Paralavis.OldRowKept | src/pages/entypo-paralavis/List.tsx:320-382 | writing a row leaves every earlier row's cells as they were |
| Paralavis.WriteRows | src/pages/entypo-paralavis/List.tsx:318-382 | record i lands on 0-based row 3+i across A..AK, the header is unchanged, and nothing else is written |
| Paralavis.RangeText | src/pages/entypo-paralavis/List.tsx:384-386 | the sheet range is written `A1:AK{3+n}` |
| Paralavis.HeaderStyled | src/pages/entypo-paralavis/List.tsx:396-409 | every existing header cell gets the bold blue header style |
| Paralavis.BandedRows | src/pages/entypo-paralavis/List.tsx:411-423 | each record row keeps its cells, light blue for the first record and alternating from there |
| Paralavis.ExportPricing | src/pages/entypo-paralavis/List.tsx:164-481 | no workbook on a fetch error or with no rows; otherwise `ENTYPO-PARALAVIS-{date}.xlsx` with the styled header, one banded row per record, the 32 merges, the fixed widths and 3 frozen rows |
| Paralavis.HeaderGaps | src/pages/entypo-paralavis/List.tsx:396-423 | C1, D1 and E1 stay absent after styling, and every cell of every data row exists |
| Paralavis.RowCellAgrees | src/pages/entypo-paralavis/List.tsx:320-382 | a record cell of the workbook holds what was written for it and agrees with the valuation |
| Paralavis.ProductCell | src/pages/entypo-paralavis/List.tsx:363 | a cell whose formula multiplies two cells holds their product |
| Paralavis.ScaledCell | src/pages/entypo-paralavis/List.tsx:364 | a cell scaling a cell by a constant holds the scaled value |
| Paralavis.SumCell | src/pages/entypo-paralavis/List.tsx:365 | a cell whose formula adds two cells holds their sum |
| Paralavis.ProductStep | src/pages/entypo-paralavis/List.tsx:363 | in the workbook a record's product formula cell holds the product |
| Paralavis.ScaledStep | src/pages/entypo-paralavis/List.tsx:364-367 | in the workbook a record's scaling formula cell holds the scaled value |
| Paralavis.SumStep | src/pages/entypo-paralavis/List.tsx:365 | in the workbook a record's sum formula cell holds the sum |
| Paralavis.CascadeSteps | src/pages/entypo-paralavis/List.tsx:361-368 | on each record row W = T*U, X = 0.47*F, Y = W+X, Z = Y*F, AA = Z*0.24, AB = Z+AA |
| Paralavis.CascadeArithmetic | src/pages/entypo-paralavis/List.tsx:361-368 | the cascade collapses to (price*ship + 0.47*qty)*qty*1.24 |
| Paralavis.CascadeValue | src/pages/entypo-paralavis/List.tsx:356-368 | a record with a price and a quantity has landed-with-VAT (price*ship + 0.47*qty)*qty*1.24, where ship is its factor or 1.09 |
| Paralavis.CascadeInputs | src/pages/entypo-paralavis/List.tsx:356-358 | T holds the price, U the shipping factor or 1.09, and F the quantity |
| Paralavis.NumberCellHolds | src/pages/entypo-paralavis/List.tsx:320-360 | a record cell holding a number is valued at that number |
| Paralavis.FormulaCellHolds | src/pages/entypo-paralavis/List.tsx:361-381 | a record's formula cell holds its column's formula and agrees with the valuation |
| Paralavis.RowFormulasHold | src/pages/entypo-paralavis/List.tsx:361-381 | every formula cell of a record row holds its formula and agrees |
| Paralavis.PricesUseHeaderMultipliers | src/pages/entypo-paralavis/List.tsx:370-378 | AC..AF are AB times the row-3 cell of their own column, not a per-row constant; AH is N times AG3 |
| Paralavis.ProductHolds | src/pages/entypo-paralavis/List.tsx:370-378 | a price cell is the product of the two cells it reads |
| Paralavis.MultiplierCells | src/pages/entypo-paralavis/List.tsx:272-276 | AC3..AG3 hold the header texts "2" .. "4.5" that the price formulas read |
| Paralavis.MaxRowNumber | src/pages/entypo-paralavis/List.tsx:105 | the reduce that takes the largest `row_number || 0` from 0; NewRowNumberIsFresh states that one more than it is above every number in the list |
| Paralavis.NewRowNumberIsFresh | src/pages/entypo-paralavis/List.tsx:105-106 | the number computed over a list of rows is at least 1 and above every row number in that list; it is 1, or one more than some number in it (on the page that list is the loaded page `data`) |
| Paralavis.LoadedPage | src/pages/entypo-paralavis/List.tsx:18-29 | `data` is the first page of the table sorted by row number: all of it when it has at most 10 rows, else its first 10 |
| Paralavis.PagedNumberRepeats | src/pages/entypo-paralavis/List.tsx:105-106 | as written, a table numbered 1..11 gets new row number 11, which its eleventh row already has |
| Paralavis.AsWrittenAgreesOnOnePage | src/pages/entypo-paralavis/List.tsx:105-106 | while the table fits on one page, numbering past the loaded page is numbering past the whole table |
| Paralavis.NewRow | src/pages/entypo-paralavis/List.tsx:105-123 | a new row gets the number one past the largest in the whole table, above every row number the table holds, and the page's default factors |
| Paralavis.PricingFormulaAgrees | src/pages/entypo-paralavis/List.tsx:361-381 | each pricing formula in place evaluates to the value computed for its cell, or divides by zero |
| Paralavis.CostProductAgrees | src/pages/entypo-paralavis/List.tsx:363-366 | W = T*U and Z = Y*F evaluate to the computed values |
| Paralavis.CostScaleAgrees | src/pages/entypo-paralavis/List.tsx:364-367 | X = 0.47*F and AA = Z*0.24 evaluate to the computed values |
| Paralavis.CostSumAgrees | src/pages/entypo-paralavis/List.tsx:365-368 | Y = W+X and AB = Z+AA evaluate to the computed values |
| Paralavis.MarginAgrees | src/pages/entypo-paralavis/List.tsx:381 | AK = (AJ-AI)/AI evaluates to the computed margin, or divides by zero where AI is 0 |
| Paralavis.PricingValuationFits | src/pages/entypo-paralavis/List.tsx:361-381 | a grid whose every formula is its column's formula on a data row is consistent with the left-to-right valuation |
| Paralavis.PricingValuationConsistent | src/pages/entypo-paralavis/List.tsx:333-381 | every exported pricing sheet has a consistent valuation, so the premise of the cascade lemmas can be met |
| Paralavis.NewRowMatchesExportFallbacks | src/pages/entypo-paralavis/List.tsx:113-119 | a new row exports the same U, V and AG as a row with those factors missing |
| Charts.OrUnknown | src/pages/charts/List.tsx:87 | the key is never empty: the value when present, "Unknown" otherwise |
| Charts.BeforeDash | src/pages/charts/List.tsx:119 | the result is a dash-free prefix of the code, followed in the code by a dash unless it is the whole code |
| Charts.BeforeDashOfCode | src/pages/charts/List.tsx:119 | a code made of a dash-free prefix, a dash and a rest yields that prefix |
| Charts.Distinct | src/pages/charts/List.tsx:85-91 | the keys in order of first appearance: the same keys, each once |
| Charts.GroupSnoc | src/pages/charts/List.tsx:85-91 | one more item adds its key to the key order exactly when the key is new |
| Charts.SumWhereSnoc | src/pages/charts/List.tsx:88-90 | one more item adds its value to its own key's sum only |
| Charts.CountWhereSnoc | src/pages/charts/List.tsx:105 | one more item adds one to its own key's count only |
| Charts.SumByKey | src/pages/charts/List.tsx:85-91 | the accumulating loop lists each distinct key once, in first-seen order, with the sum over the items that carry it |
| Charts.CountByKey | src/pages/charts/List.tsx:102-106 | the accumulating loop lists each distinct key once, in first-seen order, with the number of items that carry it |
| Charts.EntriesOf | src/pages/charts/List.tsx:108-113 | one entry per key in map order, with its count |
| Charts.CountEntries | src/pages/charts/List.tsx:108-113 | one entry per key, holding the number of items with that key |
| Charts.InsertDesc | src/pages/charts/List.tsx:124 | inserting keeps every entry, adds the new one, and puts either it or the previous head first |
| Charts.InsertKeepsOrder | src/pages/charts/List.tsx:124 | inserting into a largest-first list keeps it largest first |
| Charts.SortDesc | src/pages/charts/List.tsx:123-124 | the sort returns a permutation of the entries, largest count first |
| Charts.TopN | src/pages/charts/List.tsx:125 | the slice is the first min(n, length) entries |
| Charts.TopKeepsLargest | src/pages/charts/List.tsx:123-129 | the top n has min(n, length) entries, largest first, all taken from the input, and no entry left out counts more than the smallest kept |
| Charts.PrefixOfSorted | src/pages/charts/List.tsx:123-125 | a prefix of a sorted permutation is sorted, drawn from the input, and bounds everything after it |
| Charts.OmittedCountsNoMore | src/pages/charts/List.tsx:123-125 | in a largest-first list an entry past the first k counts no more than the k-th |
| Charts.ContainerChart | src/pages/charts/List.tsx:93-98 | one bar per container key, in map order, with the key's total CBM |
| Charts.CostPoints | src/pages/charts/List.tsx:133-144 | one point per container name, in order; point i holds name i with the product cost and the freight cost summed over the items whose container name is exactly name i |
| Charts.Colored | src/pages/charts/List.tsx:157-161 | slice i shows entry i's name and count in palette colour i mod 8 |
| Charts.BarsOf | src/pages/charts/List.tsx:93-98 | one bar per map entry, in order |
| Charts.BarsAreChart | src/pages/charts/List.tsx:84-98 | the bars built from the loop's sums are the container chart |
| Charts.EntriesAreCounts | src/pages/charts/List.tsx:108-113 | the entries built from the loop's counts are the reference counts |
| Charts.ChartsOf | src/pages/charts/List.tsx:84-162 | the five charts the page builds from the items; LoadCharts states that the loops build them, and ContainerBarsAreTheKeys, CostChartByContainer, SupplierChartKeepsTheLargest and ClientChartKeepsTheLargest state their properties |
| Charts.LoadCharts | src/pages/charts/List.tsx:70-163 | nothing on a fetch error; otherwise the five charts equal their reference definitions over the fetched items |
| Charts.ContainerBarsAreTheKeys | src/pages/charts/List.tsx:84-98 | no container key gets two bars, every bar is some item's key, and every item's key has a bar |
| Charts.OccursOnce | src/pages/charts/List.tsx:85-91 | a key occurs once in the distinct key list when present, never otherwise |
| Charts.CountAbsentKey | src/pages/charts/List.tsx:105 | a key no item carries has count 0 |
| Charts.SumAbsentKey | src/pages/charts/List.tsx:88 | a key no item carries has sum 0 |
| Charts.TotalCountSnoc | src/pages/charts/List.tsx:574 | one more item raises the total of the counts by the number of times its key is listed |
| Charts.TotalCountAppendKey | src/pages/charts/List.tsx:574 | listing one more key adds its count to the total |
| Charts.CountsSumToItems | src/pages/charts/List.tsx:102-106 | the counts of all keys add up to the number of items |
| Charts.StatusCountsSumToItems | src/pages/charts/List.tsx:574 | "Total Items", the sum of the status counts, is the number of items |
| Charts.SupplierChartKeepsTheLargest | src/pages/charts/List.tsx:116-129 | at most 10 suppliers, largest first, and no supplier left out has more items than the smallest shown |
| Charts.ClientChartKeepsTheLargest | src/pages/charts/List.tsx:147-161 | at most 5 clients, largest first, and no client left out has more items than the smallest shown |
| Charts.ClientColors | src/pages/charts/List.tsx:157-179 | each client slice shows its entry's name and count in the palette colour of its position, wrapping after 8 |
| Charts.NamedContainerCost | src/pages/charts/List.tsx:133-137 | for a real container name the cost point sums exactly the items grouped under it |
| Charts.CostChartByContainer | src/pages/charts/List.tsx:132-145 | the cost chart has one point per container bar, in the same order, and each named container's point carries the product and freight costs of exactly the items grouped under it |
| Charts.UnmatchedNameSumsToZero | src/pages/charts/List.tsx:133-137 | when no item has a given container name, the cost summed under that name is 0 |
| Charts.UnknownCostsNothing | src/pages/charts/List.tsx:132-145 | items without a container name put "Unknown" among the containers, yet, unless an item is literally named "Unknown", the cost chart's "Unknown" point has product and freight cost 0 |

## Left out

- Database access is left out: every `supabase` query, ordering, the upsert on import, and refetching. A read is an input `Fetch` (an error or the rows), and the order the query asks for is the order of that input.
- Floating point and display rounding are left out: `toFixed`, `parseFloat`, `Math.round`, and the chart rounding of CBM and costs. Amounts are exact reals.
- The model does not check how Excel evaluates a formula:
  - the valuation `env` stands for the spreadsheet's arithmetic;
  - text cells are left free in `Consistent`;
  - the SUMIF criterion is compared case-sensitively, while Excel compares it case-insensitively.
- Paralavis.CascadeValue and Paralavis.PricesUseHeaderMultipliers do not turn a text into a number. AC3..AG3 are written as text ("2" .. "4.5") and multiplied as numbers; the lemmas state the products over the cells' valuations, not the numbers Excel reads from those texts.
- Paralavis.FormulaCellHolds does not exclude a #DIV/0! error. `CellAgrees` lets a formula that divides by zero (AK when AI is 0; AI divides by the constant 1.24 and never fails) take any value.
- Number-to-text rendering (`show`), the "20NOV25" date format (`fmt`) and date parsing (`dayOf`) are parameters. dayjs and locale month names are not modelled.
- Common.Upper: only ASCII letters are upper-cased, while `toUpperCase` also maps other letters.
- SheetJS internals are assumed, not modelled:
  - the layout `json_to_sheet` produces (`Sheet.JsonToSheet`);
  - `sheet_to_json`, modelled only for text cells, with blank-row skipping not modelled (`TableExport.RowObject`);
  - binary writing, `decode_range` and the styled-writer distinction.
- Workbook views are not modelled: the 150% zoom and the RTL flag.
- The clock is read once per export. The arrivals export reads `dayjs()` for each row, so a run across midnight is not modelled.
- The container-items import mapping is left out: it depends on numeric parsing, and its "Pending" default is not one of the status values.
- The arrivals page's `handleAddNew`, the inline edit handlers and `handleSave` are left out: each is a single database write.
- Arrivals.ExportThenImport: the imported record carries no ETA, modelled as None, because the import mapping has no `eta` key. The upsert on `container_code`, left out with database access, keeps an ETA that is already stored, so only a newly inserted container ends up without one.
- Which rows the on-screen stats see is left out. The stats are computed over a given list, whether that is the current page or all rows. `ContainerStats.StatsOfConcatenation` shows how the figures of pages combine.
- The composed chart's `itemCount` expression (src/pages/charts/List.tsx:534) is left out: it is an ad hoc average tied to rendering.
- Charts.SortDesc: the model sorts stably, as JavaScript's sort does, but the relative order of entries with equal counts is not stated as a property.
- The "Total CBM" card of the charts page is left out: it adds up the rounded bar values. "Total Containers" is the number of bars.
- Loading flags, messages, console logging, the charts view selector and navigation are left out.
- The API-connections page is left out: it simulates its connections with timers and random replies.
- UI, forms, routing and styling outside the exported workbooks are left out.
- Paralavis.LoadedPage takes the page size of the table hook's server-side pagination to be its default of 10, since the page sets none. The on-screen table's own 50-row pagination is client-side and does not change `data`.

## Findings

| source | as written | input that shows it | evidently intended | confidence | as-written member | corrected member |
|---|---|---|---|---|---|---|
| src/pages/entypo-paralavis/List.tsx:105-106 | the new row number is one past the largest in `data`, the loaded page: at most 10 rows, sorted by row number | a table of 11 rows numbered 1..11: the page holds 1..10, so the new row gets 11, which row 11 already has | one past the largest row number in the whole table | medium; not executed; relies on the table hook's default page size of 10 | Paralavis.PagedNumberRepeats | Paralavis.NewRow |
