# Warehouse dashboard data step, in Dafny

This project models the in-memory logic of a warehouse dashboard. The
dashboard reads spreadsheet rows (stock, inbound, outbound, GRN, live boards,
pallets, picks and locations) and reshapes them into what its screens show:

- `src/App.jsx` holds the data step:
  - the loose column lookup `getRowValue`;
  - the two date parsers;
  - the stock totals per SKU and the stock records grouped per location;
  - the occupied count and the "danger" stock that expires within thirty days;
  - the date-range filter and the inbound/outbound totals.
- `src/components/Dashboard.jsx` holds the view logic:
  - the status-step rule of the live boards;
  - `normalizeSheetDate` and the live-board filters;
  - the Stock tab's search and sort;
  - the figures of each tab;
  - the stock CSV export;
  - the pallet and pick lists of the vehicle modal.
- `src/components/WarehouseBlueprint.jsx` holds the warehouse map:
  - its own column lookup;
  - the aisle → bay → level grouping of locations;
  - the key sort `sortKeys`;
  - the per-aisle statistics;
  - the CSV export of every location.

Modelling choices:

- A spreadsheet row is a sequence of (column, text) pairs in key order, so "the first matching column wins" keeps its meaning (`Rows.Row`).
- The plain objects the code fills (`stockMap`, `locationOccupancyMap`, the blueprint, `skuCounts`) are ordered dictionaries with distinct keys (`Rows.Dict`).
- Numbers are integers, and `None` stands for `NaN`.
- A date is the argument triple of `new Date(y, m - 1, d)`. Its time value is a day number that follows JavaScript's month and day rollover and its 0..99 → 1900s year rule (`JsDate`).
- Loops that update objects in place are methods with loop invariants:
  - the stock `forEach`;
  - the blueprint `forEach`;
  - the aisle statistics;
  - both exports' `rows.push` loops;
  - the in-place `keys.sort`, on an `array`.

  Each such method is proved equal to a function of its inputs, and the properties are lemmas about that function.
- Modules:
  - `Wrappers` holds `Option`.
  - `JsText` holds the JavaScript string and number built-ins.
  - `Rows` holds rows and ordered dictionaries.
  - `Seqs` holds filter, count, sum, map, fold and sort over sequences.
  - `JsDate` holds calendar arithmetic.
  - `Aggregate` holds the grouping and per-key folds.
  - `App`, `Dashboard` and `Blueprint` follow the three source files.
  - `Csv` holds the text both exports build.

## Model

| member | source | states |
|---|---|---|
| Rows.NormalizeKey | src/App.jsx:17 | the normalised name holds only lower-case letters and digits and is no longer than the name |
| Rows.NormalizeKeyChar | src/App.jsx:17 | one character survives, lower-cased, exactly when it is then a letter a-z or a digit |
| Rows.NormalizeKeyAppend | src/App.jsx:17 | normalising works character by character: the normal form of `a + b` is that of `a` followed by that of `b` |
| Rows.NormalizeKeyOfKeyChars | src/App.jsx:17 | a name made only of lower-case letters and digits is its own normal form |
| Rows.NormalizeKeyIdempotent | src/App.jsx:19 | normalising a normalised name changes nothing |
| App.LooseMatchIndex | src/App.jsx:16-21 | the index found is the first column whose normalised name equals, contains or is contained in the target; none means no column matches |
| App.GetRowValue | src/App.jsx:14-23 | `''` for a missing row and when no column matches; otherwise the value of the first matching column, or `''` when that column's name is empty |
| App.BlankNameAnswersEverything | src/App.jsx:19-20 | a first column whose name normalises to the empty text answers every lookup |
| App.TimeOf | src/App.jsx:44 | a date has a time value exactly when all three of its fields were read as numbers |
| App.DateFromNumbers | src/App.jsx:44 | `new Date` on three parsed numbers is never null; it is a real date exactly when all three are numbers, and then it carries them |
| App.ParseSheetDateAsWritten | src/App.jsx:34-54 | null exactly for empty text or a date token that does not split into three fields |
| App.ParseSheetDate | src/App.jsx:34-54 | null exactly as above; otherwise the date its three fields give with the corrected year rule |
| App.DateOfFields | src/App.jsx:42-49 | never null; a real date read from a four-character first field carries (year, month, day) in field order, from any other first field (day, month, year), a two-character year field standing for 20yy |
| App.ParseInputDate | src/App.jsx:56-64 | null exactly for the empty text |
| App.SplitThree | src/App.jsx:38 | three digit fields joined by separators split back into the three fields |
| App.DateTokenOfDigits | src/App.jsx:37-38 | such text is its own trimmed first token and yields the three fields |
| App.InputDateOfDigits | src/App.jsx:59 | `parseInputDate` of `y-m-d` digit fields is `new Date` on the numbers of the fields |
| App.SheetDateOfDigits | src/App.jsx:42-49 | `parseSheetDate` (corrected) on digit fields reads them in the order the first field's width picks, with the two-character-year rule |
| App.SheetDateAsWrittenOfDmyFields | src/App.jsx:46-49 | the parser as written adds 2000 exactly when the year NUMBER prints with two digits |
| App.SheetDateOfYmdFields | src/App.jsx:42-44 | a four-character first field gives the date of (year, month, day) |
| App.SheetDateOfDmyFields | src/App.jsx:46-49 | day-month-year fields give that date, in the 2000s when the year field has two characters |
| App.InputDateRoundTrip | src/App.jsx:26-32 | the picker's `yyyy-mm-dd` text of a date parses back to that date |
| App.SheetDateOfIso | src/App.jsx:42-44 | a padded `yyyy-mm-dd` with a four-digit year parses, as a sheet date, to that date |
| App.SheetDateOfDmy | src/App.jsx:46-49 | `dd/mm/y` text reads back as its fields, a two-character year field as a year of the 2000s |
| App.TwoDigitYearAsWritten | src/App.jsx:48 | as written, "dd/mm/05" is read as year 5, which `new Date` makes 1905, while the corrected rule gives 2005 |
| App.SingleDigitYearAsWritten | src/App.jsx:48 | as written, a one-digit year padded to two characters keeps its one-digit value |
| App.FilterByDate | src/App.jsx:318-331 | the rows whose date (`actual_date`, else the given column) parses and lies between the bounds, in order, each kept as often as it occurs |
| App.FilterByDateIntended | src/App.jsx:318-331 | the same filter with the corrected year rule |
| App.ParsersAgree | src/App.jsx:48 | where the year field's width and the width of its number agree, both parsers read the same date |
| App.FiltersAgree | src/App.jsx:318-331 | when every row's date text is read alike by both year rules, the filter as written and the corrected one keep the same rows |
| App.InvalidBoundKeepsNothing | src/App.jsx:326-327 | a bound that is an Invalid Date rejects every row, since comparisons with `NaN` are false |
| App.WithinBoundsIsCalendarOrder | src/App.jsx:325-330 | on real dates from year 100 on, the range test is calendar order start <= date <= end |
| App.TimeOfCalendar | src/App.jsx:44 | the time value of a date from year 100 on is its calendar day number |
| App.AggregateStock | src/App.jsx:165-183 | the loop leaves `stockMap` and `locationOccupancyMap` equal to the folds of the rows it visited |
| App.VisitStockRow | src/App.jsx:165-183 | one pass of the loop body extends both folds by the row at `i` |
| App.AddStockRow | src/App.jsx:171-176 | creates the SKU's entry the first time, then adds the quantity |
| App.AddOccupant | src/App.jsx:178-182 | creates the location's list the first time, then pushes the row |
| App.StockEntryOf | src/App.jsx:171-176 | a SKU has an entry exactly when it is non-empty and some row carries it; the entry holds the first such row's description (`'N/A'` when empty) and the sum of all such rows' quantities |
| App.StockKeysDistinct | src/App.jsx:171-176 | each SKU is a key of `stockMap` once |
| App.StockConservation | src/App.jsx:165-184 | the SKU totals add up to the quantities of all rows that carry a SKU |
| App.OccupancyGroups | src/App.jsx:178-182 | each location's list holds exactly the rows with that trimmed, upper-cased id, in input order; an id no row names is absent |
| App.OccupancyPartition | src/App.jsx:178-182 | every row with a location id is filed exactly once: the list lengths add up to the number of such rows |
| App.OccupiedCount | src/App.jsx:186-190 | the count is the number of rows whose status contains "occupied" in any case |
| App.DangerStock | src/App.jsx:197-202 | the danger rows are a subsequence of the occupied rows: exactly the occupied rows whose expiry, read by the parser as written, is a real date no later than today + 30 |
| App.DangerStockIntended | src/App.jsx:197-202 | the same with the corrected year rule |
| App.DangerAgrees | src/App.jsx:197-202 | when both year rules read every expiry alike, the two danger lists are equal |
| App.DangerCount | src/App.jsx:186-202 | there are no more danger rows than occupied rows |
| App.InboundNamedNumbers | src/App.jsx:343-344 | the named inbound fields hold the parsed pallet and box numbers |
| App.OutboundNamedNumbers | src/App.jsx:356-357 | the named outbound fields hold the parsed dispatched numbers |
| App.SpreadNumberField | src/App.jsx:334-359 | after `...row` a named number field reads as the row's own column of that exact name when it has one, else as the parsed loose column |
| App.InboundPalletsRead | src/App.jsx:334-346 | what the inbound pallet total reads from a normalised row, in terms of the raw row |
| App.InboundBoxesRead | src/App.jsx:334-346 | the same for inbound boxes |
| App.OutboundPalletsRead | src/App.jsx:349-359 | the same for dispatched pallets |
| App.OutboundBoxesRead | src/App.jsx:349-359 | the same for dispatched boxes |
| App.StatsTotals | src/App.jsx:364-375 | the counts are the numbers of rows in range and each total is the row-by-row sum of what each raw row supplies |
| Dashboard.IsActiveIgnoresCase | src/components/Dashboard.jsx:46-49 | whether a step is done does not depend on the case of its cell |
| Dashboard.IsActiveMissing | src/components/Dashboard.jsx:46-49 | a missing cell prints as "undefined" and counts as done |
| Dashboard.MissingStatus | src/components/Dashboard.jsx:47 | `String(undefined)` lower-cased and trimmed is "undefined" |
| Dashboard.StepLines | src/components/Dashboard.jsx:51-53 | along a board row, the line before step i shows exactly when i is not the first step and steps i-1 and i are both done |
| Dashboard.NormalizeSheetDate | src/components/Dashboard.jsx:125-138 | null exactly for empty text or a date token without three fields |
| Dashboard.NormalizeOfDigits | src/components/Dashboard.jsx:125-138 | on digit fields: `y-mm-dd` with month and day padded to two characters and a two-character day-month-year year prefixed by "20" |
| Dashboard.NormalizeAgreesWithParse | src/components/Dashboard.jsx:125-138 | on three digit fields, the rebuilt text parses as the picker's value to the date the corrected sheet parser reads |
| Dashboard.NormalizeAgreesYmd | src/components/Dashboard.jsx:130-132 | the same for year-month-day fields |
| Dashboard.NormalizeAgreesCentury | src/components/Dashboard.jsx:133-136 | the same for day-month-year fields with a two-character year |
| Dashboard.NormalizeAgreesDmy | src/components/Dashboard.jsx:133-136 | the same for day-month-year fields with a year of another width |
| Dashboard.NormalizeSheetText | src/components/Dashboard.jsx:125-138 | a `dd/mm/yyyy` sheet date normalises to the picker's text of that date |
| Dashboard.NormalizeTwoDigitYear | src/components/Dashboard.jsx:135 | a `dd/mm/yy` sheet date normalises to the picker's text of that date in the 2000s |
| Dashboard.FieldOrder | src/components/Dashboard.jsx:151 | equal-width digit fields compare as text exactly as they compare as numbers |
| Dashboard.MonthDayTextOrder | src/components/Dashboard.jsx:151 | `-mm-dd` tails of equal-width fields compare as (month, day) pairs |
| Dashboard.IsoTextOrder | src/components/Dashboard.jsx:151 | string order on `yyyy-mm-dd` texts of equal-width fields is date order |
| Dashboard.InputDateTextOrder | src/components/Dashboard.jsx:151 | on the picker's texts with four-digit years, string order is date order |
| Dashboard.BoardByDate | src/components/Dashboard.jsx:141-154 | a subsequence of the live rows: exactly those whose linked row has a date that normalises to text between the picker's texts |
| Dashboard.BoardBySearch | src/components/Dashboard.jsx:156-164 | a subsequence: exactly the rows whose id, or the linked row's search-date column, lower-cased contains the query |
| Dashboard.LiveBoard | src/components/Dashboard.jsx:141-193 | the live board is a subsequence of the live rows: those in the date range and, when a search is typed, matching it |
| Dashboard.BlankSearchKeepsAll | src/components/Dashboard.jsx:157-158 | a search of only white space changes nothing |
| Dashboard.BoardDateOrder | src/components/Dashboard.jsx:151 | for a `dd/mm/yyyy` linked date and picker bounds, the string test is calendar order on both sides |
| Dashboard.StockSearch | src/components/Dashboard.jsx:204-210 | everything for an empty box, otherwise exactly the rows whose SKU id or description contains the lower-cased query, in order |
| Dashboard.StockView | src/components/Dashboard.jsx:202-216 | a permutation of the search result, sorted by `Number(Total_Qty) \|\| 0` ascending or descending, the rows of each quantity in their earlier order (a stable sort) |
| Dashboard.StockRowQty | src/App.jsx:173-175 | a SKU total shown as a row reads back as its quantity |
| Dashboard.StockTabTotal | src/components/Dashboard.jsx:222-229 | with an empty search the Stock tab's shown total quantity is the sum of the quantities of all stock records that carry a SKU, whichever way it is sorted |
| Dashboard.CustomerOneRows | src/components/Dashboard.jsx:198-200 | exactly the rows whose customer contains "CUS-0001", in order |
| Dashboard.CurrentData | src/components/Dashboard.jsx:196-216 | no rows for the live and locations tabs; the inbound and danger lists unchanged; for outbound exactly the first customer's rows, in order, each as often as it occurs; the sorted search result for stock |
| Dashboard.DangerQtyTotal | src/components/Dashboard.jsx:231-240 | the free-quantity sum is `NaN` exactly when some row's quantity is not a number, otherwise the plain sum |
| Dashboard.DisplayStats | src/components/Dashboard.jsx:219-253 | all zeros exactly on the locations tab; stock: count, sum of `Total_Qty` and occupied pallets; danger: count = pallets = rows and the free-quantity sum; flow tabs: count and the pallet and box sums |
| Dashboard.InboundTabMatchesStats | src/components/Dashboard.jsx:242-252 | the inbound tab shows the figures of `stats.inbound` |
| Dashboard.OutboundTabMatchesStats | src/components/Dashboard.jsx:242-252 | the outbound tab counts no more rows than `stats.outbound`, and shows its figures when every filtered row is the first customer's |
| Dashboard.ExportHeader | src/components/Dashboard.jsx:259-261 | 8 header cells for the danger tab, 3 otherwise |
| Dashboard.ExportFields | src/components/Dashboard.jsx:263-295 | a data row has as many cells as the header |
| Dashboard.ExportTable | src/components/Dashboard.jsx:263-295 | the header first, then line k+1 holds the cells of data row k |
| Dashboard.StockExport | src/components/Dashboard.jsx:255-298 | no file for an empty list; otherwise the CSV text of the header and one line per row |
| Dashboard.PushRows | src/components/Dashboard.jsx:263-295 | the push loop builds the header followed by each row's cells |
| Dashboard.HeaderUnbroken | src/components/Dashboard.jsx:259-261 | no header cell holds a line break |
| Dashboard.ExportLines | src/components/Dashboard.jsx:298 | when no cell holds a line break, splitting the text at line breaks gives the header line and exactly one line per data row, in order |
| Dashboard.AuxGrns | src/components/Dashboard.jsx:1035-1037 | exactly the GRN ids of the GRN rows with the selected vehicle number |
| Dashboard.PossibleGrns | src/components/Dashboard.jsx:1039 | the selected GRN and the auxiliary ones |
| Dashboard.MatchingPallets | src/components/Dashboard.jsx:1041-1045 | a subsequence: exactly the pallets with the same non-empty vehicle number or a non-empty GRN id among the possible ones |
| Dashboard.MatchingPicks | src/components/Dashboard.jsx:1082-1086 | a subsequence: exactly the picks whose non-empty id contains the selected DN id |
| Dashboard.EmptyDnMatchesAllPicks | src/components/Dashboard.jsx:1082-1086 | a vehicle without a DN id lists every pick that has an id |
| Blueprint.FindValue | src/components/WarehouseBlueprint.jsx:5-9 | the value of the first column whose normalised name contains the normalised target; null when none does or that column's name is empty |
| Blueprint.ForwardMatchAgrees | src/components/WarehouseBlueprint.jsx:5-9 | when no column name is a proper part of the target, both lookups agree |
| Blueprint.NoReverseMatch | src/components/WarehouseBlueprint.jsx:7 | a column "SKU" answers `'sku_id'` in the data step's lookup but not here |
| Blueprint.BuildBlueprint | src/components/WarehouseBlueprint.jsx:41-66 | the loop leaves the nested structure equal to the fold of the rows |
| Blueprint.PlaceRow | src/components/WarehouseBlueprint.jsx:45-62 | one row: skipped without a location code, otherwise missing objects are created and its entry pushed |
| Blueprint.SlotAfterAdd | src/components/WarehouseBlueprint.jsx:53-62 | a push extends its own (aisle, bay, level) list and leaves every other list alone |
| Blueprint.SlotContents | src/components/WarehouseBlueprint.jsx:44-62 | each list holds exactly the entries of the rows with a location code filed there, in input order |
| Blueprint.AddLocationTotal | src/components/WarehouseBlueprint.jsx:58-62 | each push adds one entry |
| Blueprint.EntryCount | src/components/WarehouseBlueprint.jsx:44-62 | the structure holds one entry per row with a location code |
| Blueprint.AddLocationKeyed | src/components/WarehouseBlueprint.jsx:53-55 | creating only missing objects keeps every key stored once |
| Blueprint.BlueprintKeyed | src/components/WarehouseBlueprint.jsx:41-66 | the structure built from any sheet stores each key once at every level |
| Blueprint.KeyCompare | src/components/WarehouseBlueprint.jsx:69-76 | the numeric difference when both keys read as numbers, otherwise text order |
| Blueprint.KeySortPermutes | src/components/WarehouseBlueprint.jsx:69-76 | sorting keeps the same keys, each as often |
| Blueprint.NumericKeysSorted | src/components/WarehouseBlueprint.jsx:72-73 | keys that all read as numbers end in ascending numeric order |
| Blueprint.TextKeysSorted | src/components/WarehouseBlueprint.jsx:75 | keys none of which reads as a number end in text order |
| Blueprint.MixedKeysCycle | src/components/WarehouseBlueprint.jsx:69-76 | on mixed keys the comparator is cyclic: "8" < "+9" < "/" < "8" |
| Blueprint.SortKeys | src/components/WarehouseBlueprint.jsx:69-76 | the in-place sort leaves the array equal to the sorted order of its old contents |
| Blueprint.InsertKey | src/components/WarehouseBlueprint.jsx:69-76 | one pass moves `a[i]` back into the sorted prefix and leaves the rest alone |
| Blueprint.AddQty | src/components/WarehouseBlueprint.jsx:266 | `+=` is `NaN` exactly when either side is |
| Blueprint.TallyMeaning | src/components/WarehouseBlueprint.jsx:252-270 | each location adds one to the total, one to the occupied count when occupied, and its items to the SKU totals |
| Blueprint.AisleFigures | src/components/WarehouseBlueprint.jsx:246-273 | total = entries of the aisle, occupied = those with a non-empty occupancy list, empty = the difference and never negative, SKU totals over the occupied items |
| Blueprint.SkuCountEntry | src/components/WarehouseBlueprint.jsx:258-267 | an entry exactly for each SKU some item carries (`'Unknown'` when missing), with its first item's description and the sum of its items' quantities, `NaN` once one does not parse |
| Blueprint.AisleStats | src/components/WarehouseBlueprint.jsx:246-273 | the nested loops compute the figures AisleFigures describes |
| Blueprint.VisitBay | src/components/WarehouseBlueprint.jsx:250 | one bay extends the running figures by its entries |
| Blueprint.TallyLevels | src/components/WarehouseBlueprint.jsx:251 | one bay's levels, in order |
| Blueprint.TallyLocations | src/components/WarehouseBlueprint.jsx:252 | one level's entries, in order |
| Blueprint.VisitLocation | src/components/WarehouseBlueprint.jsx:253-268 | one entry counted, and when occupied its items added |
| Blueprint.TallyItems | src/components/WarehouseBlueprint.jsx:259-267 | the items of one occupied location added to the SKU totals |
| Blueprint.VisitItem | src/components/WarehouseBlueprint.jsx:260-266 | one item added to its SKU's entry |
| Blueprint.ItemLineShape | src/components/WarehouseBlueprint.jsx:99-109 | an item line has 9 cells: the place, the quoted code, "Occupied" and the item's four cells |
| Blueprint.EmptyLineShape | src/components/WarehouseBlueprint.jsx:112 | an empty line has 9 cells: the place, the quoted code, "Empty" and four blanks |
| Blueprint.LocationLinesMeaning | src/components/WarehouseBlueprint.jsx:93-114 | one line per item of an occupied location, one "Empty" line otherwise, all at that place |
| Blueprint.LevelLinesMeaning | src/components/WarehouseBlueprint.jsx:91-115 | a level gives the sum over its locations of max(1, items) lines, of which the vacant locations' are "Empty" |
| Blueprint.BayLinesMeaning | src/components/WarehouseBlueprint.jsx:87-116 | the same counts added over the bay's levels |
| Blueprint.AisleLinesMeaning | src/components/WarehouseBlueprint.jsx:84-117 | the same counts added over the aisle's bays |
| Blueprint.AislesLinesMeaning | src/components/WarehouseBlueprint.jsx:84-117 | the same counts added over all aisles |
| Blueprint.HeaderShape | src/components/WarehouseBlueprint.jsx:81 | the header has 9 cells and is not an "Empty" line |
| Blueprint.WarehouseTableMeaning | src/components/WarehouseBlueprint.jsx:80-117 | the header, then Σ max(1, items) lines over all locations, of which one "Empty" line per vacant location, every line 9 cells |
| Blueprint.VacantLocations | src/components/WarehouseBlueprint.jsx:93-114 | with no stock every location gives exactly one line, an "Empty" one |
| Blueprint.EmptyStockExport | src/components/WarehouseBlueprint.jsx:41-117 | with no stock the export has the header and one "Empty" line per row with a location code |
| Blueprint.WarehouseExport | src/components/WarehouseBlueprint.jsx:80-119 | the nested push loops build the CSV text of the table, aisles, bays and levels in sorted key order |
| Blueprint.SortedKeys | src/components/WarehouseBlueprint.jsx:78 | `sortKeys(Object.keys(o))` gives the sorted order of the keys |
| Blueprint.PushAisle | src/components/WarehouseBlueprint.jsx:84-117 | appends the aisle's lines |
| Blueprint.PushBay | src/components/WarehouseBlueprint.jsx:87-116 | appends the bay's lines |
| Blueprint.PushLevel | src/components/WarehouseBlueprint.jsx:91-115 | appends the level's lines |
| Blueprint.PushLocation | src/components/WarehouseBlueprint.jsx:93-114 | appends the location's lines |
| Blueprint.PushItems | src/components/WarehouseBlueprint.jsx:98-110 | appends one line per item |
| Aggregate.GroupByGet | src/App.jsx:178-182 | a key's group is exactly its members, in order, and absent when it has none |
| Aggregate.GroupByPartition | src/App.jsx:178-182 | the groups' sizes add up to the number of elements that have a key |
| Aggregate.StockEntryBy | src/App.jsx:171-176 | the per-key fold's entry: present exactly when some element carries the key, first description, summed quantity |
| Aggregate.StockConservationBy | src/App.jsx:171-176 | the per-key totals add up to the quantities of the elements that carry a key |
| Aggregate.StockKeysDistinctBy | src/App.jsx:172-174 | the per-key fold stores each key once |
| Csv.CsvLines | src/components/WarehouseBlueprint.jsx:119 | splitting the CSV text at line breaks gives one line per table row when no cell holds a line break |
| Rows.GetFirst | src/App.jsx:172-174 | a dictionary lookup finds the first entry under the key |
| Rows.PutDistinct | src/App.jsx:172-174 | storing under a key keeps every key stored once |
| Rows.Spread | src/App.jsx:334-345 | after `{ ...named, ...row }` each column reads as the row's own when it has one, else as the named field |
| Aggregate.MembersSubseq | src/App.jsx:178-182 | a key's group keeps the input order |
| Seqs.FindFirst | src/components/Dashboard.jsx:143 | `find`: none exactly when no element matches, otherwise the index of the first match |
| Seqs.SumOptions | src/components/Dashboard.jsx:231-240 | a sum is `NaN` exactly when some term is |
| Seqs.SortCmpPerm | src/components/Dashboard.jsx:212-216 | sorting by a comparator keeps the same elements, each as often |
| Seqs.SortByStable | src/components/Dashboard.jsx:212-216 | the quantity sort is stable: the elements of any one key keep their input order |
| Seqs.InsertStable | src/components/Dashboard.jsx:212-216 | one insertion places the element after every element of its key |
| Seqs.SortCmpSorted | src/components/Dashboard.jsx:212-216 | with a comparator that is a total preorder on the elements, the result is ordered by it |
| JsText.ToLower | src/App.jsx:17 | same length, no upper-case letter left |
| JsText.LowerOfUpper | src/App.jsx:178 | lower-casing after upper-casing is plain lower-casing, so location ids compare alike |
| JsText.ContainsIff | src/components/Dashboard.jsx:207-208 | `includes` holds exactly when the text occurs at some position |
| JsText.StrLeDigits | src/components/Dashboard.jsx:151 | on equal-width digit strings text order is numeric order |
| JsDate.YearLength | src/App.jsx:44 | a year has 366 days when leap, 365 otherwise |
| JsText.TrimIsInfix | src/App.jsx:37 | `trim` removes exactly the white space at both ends |
| JsText.SplitJoin | src/App.jsx:38 | joining separator-free pieces and splitting again gives the pieces |
| JsText.JoinSplit | src/App.jsx:59 | splitting on a character and joining with it gives the text back |
| JsText.PadStart | src/components/Dashboard.jsx:132 | `padStart(n, '0')`: at least n characters, zeros before the unchanged text |
| JsText.NumberOfString | src/App.jsx:43 | `Number(String(i))` is `i` |
| JsText.NumberOfPadded | src/App.jsx:28-29 | a zero-padded decimal is a digit string that `Number` reads as its value |
| JsText.ParsePrefixStops | src/App.jsx:170 | `parseFloat` reads an integer followed by anything that is not a digit as that integer |
| JsText.StrCompare | src/components/WarehouseBlueprint.jsx:75 | zero exactly for equal texts, negative exactly when the first is strictly before the second |
| JsDate.DayOrder | src/App.jsx:44 | on valid dates the day number orders dates as the calendar does |
| JsDate.MonthRollover | src/App.jsx:44 | `new Date(y, 12, d)` is `new Date(y + 1, 0, d)` |
| JsDate.MakeDayOfCalendar | src/App.jsx:44 | from year 100 on, `new Date(y, m - 1, d)` is the calendar date y-m-d |

## Left out

- Fetching and parsing the sheets (`fetch`, `Papa.parse`, the polling timer, src/App.jsx:121-299 outside the aggregation): the model starts from the parsed rows.
- The GRN/Falcon mapping of `loadAllData` beyond the stock sheet is not part of this model.
- React rendering, tab and hover state, animations and the pinned-tooltip listeners (src/components/WarehouseBlueprint.jsx:16-38) are user interface only.
- src/components/LoginScreen.jsx, src/components/DetrojBlueprint.jsx and src/components/WelcomeScreen.jsx are not part of this model.
- App.DangerStock: "today" is a day-number parameter, not the wall clock, and `today.setHours(0, 0, 0, 0)` is taken as given.
- Dashboard.DaysColumn: the days-remaining cell of the danger export depends on the clock and is a parameter `daysRemaining`.
- Dashboard.StockExport: the `data:` prefix, `encodeURI` and the link click (src/components/Dashboard.jsx:298-305) are left out; the model stops at the CSV text.
- Blueprint.WarehouseExport: the same for src/components/WarehouseBlueprint.jsx:119-126, and the dated file name.
- JsText.JsNumber: integers only. Fractions, exponents, hexadecimal and "Infinity" are not read. A pallet count "2.5" reads as `NaN` and then 0, where JavaScript gives 2.5.
- JsText.ParsePrefixInt: the same. `parseFloat("2.5")` reads 2, so a quantity loses its fraction.
- JsText.Quantity: the same.
- Blueprint.KeyNumber: the same, so keys "1.5" and "1.2" tie as 1 where JavaScript orders them.
- JsText.ToLower: ASCII letters only. The same holds for JsText.ToUpper; Unicode case mapping is not modelled.
- JsText.StrCompare: stands in for `localeCompare`. It is plain character order, not locale collation.
- Blueprint.SortKeys: modelled as an insertion sort. On keys that mix numbers and other text the comparator is inconsistent (Blueprint.MixedKeysCycle), so the order the JavaScript engine's sort leaves such keys in need not agree.
- Rows.Dict: `stockMap`, the blueprint `structure` and `skuCounts` are plain `{}` objects keyed by raw sheet values, so they inherit the members of `Object.prototype`. For a SKU, aisle or bay named "constructor", "toString", "valueOf" or "hasOwnProperty", `!map[key]` is false, no own entry is created, and `Object.keys`/`Object.values` leave the key out; "__proto__" writes onto the prototype. The model creates an ordinary entry for every key, so App.StockEntryOf, Aggregate.StockEntryBy, Blueprint.SlotContents and Blueprint.SkuCountEntry describe JavaScript only for keys that are not such member names. `locationOccupancyMap` is unaffected in practice, since its keys are upper-cased.
- Rows.Keys: JavaScript's `Object.keys` lists integer-like keys ("100", "7") first in ascending numeric order, then the other keys in insertion order. The model keeps insertion order for all keys.
- Rows.Values: the same for `Object.values`. In consequence:
  - App.StockData lists SKUs in first-seen order. For SKUs "200" then "100", JavaScript lists "100" first, and the stable stock sort then orders equal-quantity rows differently.
  - Blueprint.LevelLocations and Blueprint.AisleLocations visit bays and levels in insertion order. This decides which item's description a SKU's `desc` takes, and the order of `skuCounts`.
  - The exports sort the keys first, but `sortKeys` ties distinct keys that `parseFloat` reads as the same number ("1" and "1A", or "1" and "01"), and a tie keeps the incoming order. For bays inserted "1A" then "1", the model's Blueprint.WarehouseExport lists bay "1A" first, while JavaScript's `Object.keys` hands "1" over first and the export lists it first.
- App.TimeOf: the day number is unbounded. JavaScript's time-value range (±100,000,000 days) and the daylight-saving shifts of local time are not modelled.
- Csv.Quote: quotes inside a cell are not escaped, as in the source, and the model does not promise the CSV can be read back when a cell holds a quote or a comma.
- Dashboard.FindLinked carries no contract of its own: `Seqs.FindFirst` states it.
- Dashboard.DisplayStats: the stock and flow sums wrap each step in `Number(acc)`, which is the identity on the integers the model uses.

## Findings

| source | as written | input that shows it | evidently intended | confidence | as-written member | corrected member |
|---|---|---|---|---|---|---|
| src/App.jsx:48 | the two-digit-year test is on the NUMBER read (`String(yyyy).length === 2`), so a zero-padded year field "05" is read as 5 and `new Date(5, …)` gives 1905 | "15/03/05" parses to 1905-03-15, so a row with that `actual_date` falls outside 2000-01-01..2010-12-31 | a two-character year field is a year of this century (2005), the rule `normalizeSheetDate` applies at src/components/Dashboard.jsx:135 | not executed | App.ParseSheetDateAsWritten, App.TwoDigitYearAsWritten, App.FilterByDate, App.DangerStock | App.ParseSheetDate, App.SheetDateOfDmy, App.FilterByDateIntended, App.DangerStockIntended |
