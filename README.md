# Stockpile ledger and weekly meal board — a Dafny model

This project models the logic of two small TypeScript web apps in one repository.

**bousai-bichiku** manages emergency food stock (防災備蓄) for a company with branches and storage locations. The model covers:

- moving stock between locations, with a log of moves;
- the product and organisation-unit master store and its drill-down screen;
- CSV import and export;
- expiry alerts;
- BCP sufficiency and shortage alerts;
- donation sustainability totals;
- migrating old stock rows into products;
- branch configuration;
- the smaller list rules of its screens.

**vibe-cooking** plans a week of meals. The model covers:

- the weekly board and its drag-and-drop effects on the plan table;
- the slot ids that encode a drop target, and their decoding;
- the soup gacha;
- the recipe detail form;
- the two serverless endpoints, which extract a recipe from a page and fetch a page's title.

Each source file of the core is modelled by one Dafny module, named after the file except for these:

- bousai-bichiku `src/App.tsx`: `StockLedger` (the stock list, moves, counts) and `CsvExport` (the CSV export);
- vibe-cooking `src/App.tsx`: `PlannerApp`, with the date helpers in `Calendar`;
- `MasterContext.tsx`: `MasterStore`;
- `branchConfig.ts`: `BranchDefaults`;
- `RecipeDetailModal.tsx`: `RecipeDetail`;
- `SoupGachaModal.tsx`: `SoupGacha`.

The modules share some helper modules:

- `Wrappers`: Option, Result and JavaScript truthiness;
- `SeqUtil`: filters, counts and de-duplication;
- `Strings`: the JavaScript white-space set, trim, split and join, replace, number printing;
- `Sorting`: a stable sort, as `Array.prototype.sort` is, and the default string order;
- `StockTypes` and `MealTypes`: the records of the two apps;
- `Calendar`: day numbers and weekdays.

The form of the code follows the source:

- Pure code (filters, lookups, calculators) becomes functions, with lemmas about them.
- Code that updates state is imperative Dafny:
  - React state that handlers update (move modal, master store, breadcrumbs, product editor, weekly planner, soup gacha, recipe detail) becomes a class with `modifies` clauses.
  - Loops that accumulate (CSV line scanner, shortage and BCP engines, migration, sustainability totals, branch extraction) become methods with loop invariants, proved equal to a specification function.

The outside world enters as parameters:

- the clock (`now`, `today`, ISO timestamps);
- `Math.random` and the fresh ids built from it;
- the parsing of date strings into day numbers;
- date-fns formatting of a day as `yyyy-MM-dd`;
- the answers of the database and of confirm dialogs;
- the first matches of the endpoints' regular expressions and CSS selectors.

Database tables are in-memory sequences in insertion order.

## Model

| member | source | states |
|---|---|---|
| StockLedger.TotalQuantityAppend | bousai-bichiku/src/App.tsx:196-201 | appending a row adds its quantity to the stock total |
| StockLedger.TotalQuantityUpdate | bousai-bichiku/src/App.tsx:196-199 | overwriting one row changes the total by the difference of the old and new quantities |
| StockLedger.Move | bousai-bichiku/src/App.tsx:190-202 | an unknown id leaves the rows as they were; the result has the same number of rows or one more; every row other than the moved one keeps its value and position |
| StockLedger.MoveConservesTotal | bousai-bichiku/src/App.tsx:196-201 | a move neither creates nor destroys stock: the total quantity is the same after it |
| StockLedger.MoveFullRelocates | bousai-bichiku/src/App.tsx:196-197 | a request of at least the balance relocates the row itself: same place, same id, same quantity, new branch and storage |
| StockLedger.MovePartialSplits | bousai-bichiku/src/App.tsx:198-200 | a request below the balance lowers the row by the request and appends one row `<id>-moved-<now>` with the request, the destination and the other fields copied |
| StockLedger.Ledger.constructor | bousai-bichiku/src/App.tsx:170-203 | a ledger starts with the given rows and an empty move log |
| StockLedger.Ledger.HandleMove | bousai-bichiku/src/App.tsx:170-203 | an unknown id changes neither rows nor log; otherwise exactly one log entry, a snapshot of the row before the move plus the request, is put in front, and the rows become `Move`'s; the total is kept |
| StockLedger.BranchCountsCount | bousai-bichiku/src/App.tsx:139-145 | a branch has an entry in the counts exactly when it has a live row, and the entry is the number of its live rows |
| StockLedger.ItemCountByBranch | bousai-bichiku/src/App.tsx:139-145 | the loop builds the counts record: every branch with a non-donated row maps to the number of such rows, and no other branch appears |
| StockLedger.StockRow | bousai-bichiku/src/App.tsx:49-59 | a row of the stock export has one cell per header |
| StockLedger.StockRows | bousai-bichiku/src/App.tsx:49-59 | the export has one cell row per item, in item order |
| StockLedger.StockCsvRoundTrip | bousai-bichiku/src/App.tsx:47-64 | the export is the 9-name header line and one line per item; each item line parses back to the item's cells when no cell holds a quote or a newline or starts or ends with white space (commas are safe, since every cell is quoted) |
| CsvExport.QuoteAll | bousai-bichiku/src/App.tsx:63 | every cell is wrapped in double quotes, none escaped, in order |
| CsvExport.QuotedLines | bousai-bichiku/src/App.tsx:63 | one quoted line per row, in row order |
| CsvExport.ExportContent | bousai-bichiku/src/App.tsx:61-64 | without rows the content is the header line alone |
| CsvExport.WithBom | bousai-bichiku/src/App.tsx:66 | the saved text is a byte-order mark followed by the content unchanged |
| CsvExport.ScanQuotedLine | bousai-bichiku/src/utils/csvParser.ts:28-53 | the importer's character loop reads a quoted line cell by cell, ending inside the last cell |
| CsvExport.QuotedLineRoundTrip | bousai-bichiku/src/App.tsx:63 | a quoted line parses back to its cells when no cell holds a quote or surrounding white space |
| CsvExport.QuoteInCellIsLost | bousai-bichiku/src/App.tsx:63 | a quote inside a cell is not escaped, so the importer drops it: `a"b` comes back as `ab` |
| CsvExport.JoinAvoids | bousai-bichiku/src/App.tsx:61-64 | joining pieces free of a character, with a separator free of it, gives text free of it |
| CsvExport.QuotedLineNoNewline | bousai-bichiku/src/App.tsx:63 | a row without newlines quotes to a single line |
| CsvExport.ExportRoundTrip | bousai-bichiku/src/App.tsx:61-64 | split on newlines, an export gives the header line and then each row's line, and each parses back to that row's cells |
| MoveHistory.LogRow | bousai-bichiku/src/components/MoveHistory.tsx:97-108 | a log row has one cell per header |
| MoveHistory.LogRows | bousai-bichiku/src/components/MoveHistory.tsx:97-108 | one row of cells per log entry, in log order |
| MoveHistory.HistoryCsv | bousai-bichiku/src/components/MoveHistory.tsx:110-115 | without entries the file is the byte-order mark and the header line |
| MoveHistory.HistoryCsvRoundTrip | bousai-bichiku/src/components/MoveHistory.tsx:95-115 | after the byte-order mark, the file is the 10-name header line and one line per entry, each parsing back to the entry's cells |
| CsvParser.ParseCsvLine | bousai-bichiku/src/utils/csvParser.ts:28-53 | the character loop gives the fields of the line, one more than its commas outside quotes |
| CsvParser.ScanFieldCount | bousai-bichiku/src/utils/csvParser.ts:43-45 | a field is closed at each comma outside quotes and nowhere else |
| CsvParser.ScanInsideQuotes | bousai-bichiku/src/utils/csvParser.ts:36-48 | inside quotes, text without a quote character is taken into the current field as it is |
| CsvParser.ScanQuotedField | bousai-bichiku/src/utils/csvParser.ts:36-48 | a quoted cell free of quotes is read as its contents, the quotes dropped |
| CsvParser.KnownHeadersGiveRowKeys | bousai-bichiku/src/utils/csvParser.ts:72-116 | every header of the Japanese or English table maps to one of the raw row's eleven keys |
| CsvParser.UnknownHeaderNormalised | bousai-bichiku/src/utils/csvParser.ts:116 | any other header is lower-cased with its white space removed, leaving no white space and no capital |
| CsvParser.RowKeys | bousai-bichiku/src/utils/csvParser.ts:61-62 | the key of each header, in header order |
| CsvParser.MapToRawRow | bousai-bichiku/src/utils/csvParser.ts:58-67 | the loop over headers builds the raw row of the header keys and values |
| CsvParser.RawRowSpec | bousai-bichiku/src/utils/csvParser.ts:58-67 | the row's keys are exactly the header keys; a key takes the value of its last header, "" past the end of the values |
| CsvParser.NormalizeCategoryName | bousai-bichiku/src/utils/csvParser.ts:162-182 | the name of every category normalises back to that category |
| CsvParser.ConvertRow | bousai-bichiku/src/utils/csvParser.ts:122-157 | a row without a name gives no item; otherwise the item has the row's name and row index, and the import time as both timestamps |
| CsvParser.ConvertRowDefaults | bousai-bichiku/src/utils/csvParser.ts:122-157 | the id, unit, branch and storage defaults, the legacy location fallback, the donated marks, the notes, the expiration date as NormalizeDate of its cell, and the import time as both timestamps |
| CsvParser.ConvertedDateIsIso | bousai-bichiku/src/utils/csvParser.ts:126 | a row whose date cell is empty or holds a date in an accepted form gets a YYYY-MM-DD expiration date |
| CsvParser.ConvertRowQuantity | bousai-bichiku/src/utils/csvParser.ts:146 | the quantity is the parsed number, or 1 when there is none or it is 0 |
| CsvParser.ConvertRows | bousai-bichiku/src/utils/csvParser.ts:13-20 | the converted items are named, come from the given lines and keep line order |
| CsvParser.RawRows | bousai-bichiku/src/utils/csvParser.ts:14-17 | one raw row per data line |
| CsvParser.ParseCsvItems | bousai-bichiku/src/utils/csvParser.ts:6-23 | no items without a header line and a data line; fewer items than lines; each named and from a data line |
| CsvParser.ParseCsv | bousai-bichiku/src/utils/csvParser.ts:6-23 | the loop over the lines gives exactly the items of ParseCsvItems |
| CsvParser.DigitRun | bousai-bichiku/src/utils/csvParser.ts:195-196 | a greedy run of at most `max` digits, stopped by a non-digit |
| CsvParser.SearchDate | bousai-bichiku/src/utils/csvParser.ts:194-200 | none exactly when no position matches; otherwise the match at the leftmost matching position, with a four-digit year and a month and day of one or two digits |
| CsvParser.NormalizeDate | bousai-bichiku/src/utils/csvParser.ts:187-217 | an empty value becomes next year's date; else the first year-first match, written YYYY-MM-DD with month and day zero-padded; else the first year-last match, likewise; else the value unchanged |
| CsvParser.YearFirstParts | bousai-bichiku/src/utils/csvParser.ts:195 | `Y-M-D`, `Y/M/D` and `Y年M月D日` (4-digit year, 1-2-digit month and day) match with the year, month and day as written, whatever follows a day not running into another digit |
| CsvParser.YearLastParts | bousai-bichiku/src/utils/csvParser.ts:196 | `M/D/Y` and `M-D-Y` match with month, day and year as written, whatever follows |
| CsvParser.NormalizeYearFirst | bousai-bichiku/src/utils/csvParser.ts:199-206 | a value starting with a year-first date normalises to `Y-MM-DD` |
| CsvParser.NormalizeYearLast | bousai-bichiku/src/utils/csvParser.ts:199-211 | a value that is a year-last date normalises to `Y-MM-DD`: no year-first match exists in it |
| CsvParser.FormatIso | bousai-bichiku/src/utils/csvParser.ts:202-211 | a matched date, padded, is in YYYY-MM-DD shape |
| CsvParser.PadTwo | bousai-bichiku/src/utils/csvParser.ts:204-205 | padding one or two digits gives two digits |
| CsvParser.IsoDateFixed | bousai-bichiku/src/utils/csvParser.ts:195-206 | a date already in YYYY-MM-DD shape is kept |
| CsvParser.NormalizeDateIdempotent | bousai-bichiku/src/utils/csvParser.ts:187-217 | normalising twice equals normalising once |
| CsvParser.ReadLine | bousai-bichiku/src/utils/csvParser.ts:14-20 | one turn of the loop adds exactly the item its line gives, ahead of the items of the later lines |
| CsvParser.ItemsFromRows | bousai-bichiku/src/utils/csvParser.ts:13-21 | reading the lines one by one gives the same items as converting their raw rows in order |
| CsvParser.ParseCsvItemsByLine | bousai-bichiku/src/utils/csvParser.ts:6-23 | with a header line and more, the items are those of the lines after the header, read against the header's fields |
| CsvParser.SquashedLowerShape | bousai-bichiku/src/utils/csvParser.ts:116 | the fallback key has no white space and no capital, its other characters kept in order |
| MoveModal.BranchUnitNamed | bousai-bichiku/src/components/MoveModal.tsx:39-40 | the first unit named as the branch and of the Branch layer; none exactly when no unit is both |
| MoveModal.Names | bousai-bichiku/src/components/MoveModal.tsx:47 | the unit names, in unit order |
| MoveModal.LocationsForBranch | bousai-bichiku/src/components/MoveModal.tsx:36-49 | no locations for an unknown branch; the names come out sorted |
| MoveModal.CandidatesWithin | bousai-bichiku/src/components/MoveModal.tsx:43-45 | every candidate is a Location unit directly under the branch or under one of its departments |
| MoveModal.WithinAreCandidates | bousai-bichiku/src/components/MoveModal.tsx:43-45 | every Location unit directly under the branch or under one of its departments is a candidate |
| MoveModal.NamesMember | bousai-bichiku/src/components/MoveModal.tsx:47 | a name is listed exactly when some unit carries it |
| MoveModal.LocationsForBranchMembers | bousai-bichiku/src/components/MoveModal.tsx:36-49 | a name is offered exactly when a Location unit with that name lies at most two levels below the branch |
| MoveModal.MoveForm.constructor | bousai-bichiku/src/components/MoveModal.tsx:16-18 | quantity 1, no branch and no storage chosen |
| MoveModal.MoveForm.Open | bousai-bichiku/src/components/MoveModal.tsx:21-31 | opening for an item resets the quantity to 1, keeps the item's branch and clears the storage |
| MoveModal.MoveForm.EnterQuantity | bousai-bichiku/src/components/MoveModal.tsx:78 | the parsed number, or 0 when the text has none; the choices stay |
| MoveModal.MoveForm.SelectBranch | bousai-bichiku/src/components/MoveModal.tsx:84-87 | choosing a branch clears the storage choice |
| MoveModal.MoveForm.SelectStorage | bousai-bichiku/src/components/MoveModal.tsx:99 | choosing a storage changes nothing else |
| MoveModal.MoveForm.AvailableLocations | bousai-bichiku/src/components/MoveModal.tsx:51 | no locations until a branch is chosen, then that branch's locations |
| MoveModal.MoveForm.Confirm | bousai-bichiku/src/components/MoveModal.tsx:53-60 | the move is confirmed exactly when 1 <= quantity <= stock and both choices are made; each rejection message matches its own condition, in the source's order |
| MoveModal.ConfirmedMoveKeepsStock | bousai-bichiku/src/components/MoveModal.tsx:54-59 | a confirmed move keeps every quantity positive, and removes a row exactly when the whole stock moves |
| MasterStore.ReplaceProduct | bousai-bichiku/src/contexts/MasterContext.tsx:152 | every product with the given id is replaced, every other one kept, positions kept |
| MasterStore.ReplaceUnit | bousai-bichiku/src/contexts/MasterContext.tsx:177 | every unit with the given id is replaced, every other one kept, positions kept |
| MasterStore.Store.constructor | bousai-bichiku/src/contexts/MasterContext.tsx:63-68 | the store holds the given products and units |
| MasterStore.Store.AddProduct | bousai-bichiku/src/contexts/MasterContext.tsx:143-145 | the product is appended; the units are untouched |
| MasterStore.Store.UpdateProduct | bousai-bichiku/src/contexts/MasterContext.tsx:151-153 | the products with the id are replaced; the units are untouched |
| MasterStore.Store.DeleteProduct | bousai-bichiku/src/contexts/MasterContext.tsx:159-161 | the products with the id are removed; the units are untouched |
| MasterStore.Store.AddOrgUnit | bousai-bichiku/src/contexts/MasterContext.tsx:169-171 | the unit is appended; the products are untouched |
| MasterStore.Store.UpdateOrgUnit | bousai-bichiku/src/contexts/MasterContext.tsx:176-178 | the units with the id are replaced; the products are untouched |
| MasterStore.Store.DeleteOrgUnit | bousai-bichiku/src/contexts/MasterContext.tsx:184-187 | the unit and its direct children are removed; the products are untouched |
| MasterStore.Store.GetChildren | bousai-bichiku/src/contexts/MasterContext.tsx:195-197 | exactly the units with that parent, or for a missing or empty parent exactly the units without one |
| MasterStore.Store.Branches | bousai-bichiku/src/contexts/MasterContext.tsx:200 | exactly the units of the Branch layer |
| MasterStore.ReplaceProductSettles | bousai-bichiku/src/contexts/MasterContext.tsx:151-153 | after an update the product is in place, and updating again changes nothing |
| MasterStore.DeleteUndoesAdd | bousai-bichiku/src/contexts/MasterContext.tsx:143-161 | deleting a product just added with a fresh id gives back the list before |
| MasterStore.DeleteLeavesGrandchildren | bousai-bichiku/src/contexts/MasterContext.tsx:182-187 | the delete does not cascade: a grandchild stays, and its parent is gone |
| MasterStore.LocationUnitsAt | bousai-bichiku/src/contexts/MasterContext.tsx:107-115 | location i of a branch becomes the unit `<branch>_loc_<i>` under that branch, with an empty address and no other settings |
| MasterStore.UnitsFor | bousai-bichiku/src/contexts/MasterContext.tsx:97-116 | a branch unit with the configured headcount, followed by one unit per storage location |
| MasterStore.InitialUnits | bousai-bichiku/src/contexts/MasterContext.tsx:95-117 | the nested loops build the units of every branch configuration, in order |
| MasterStore.AppendBranchUnits | bousai-bichiku/src/contexts/MasterContext.tsx:97-115 | one configuration appends its Branch unit and then one Location unit per storage place, in order |
| MasterStore.InitialParentsResolve | bousai-bichiku/src/contexts/MasterContext.tsx:95-117 | every initial unit with a parent has a branch unit with that id |
| MasterManagement.DrillDown | bousai-bichiku/src/pages/MasterManagement.tsx:113-117 | a Location is a leaf and changes nothing; any other unit becomes the current parent and one more breadcrumb; the breadcrumbs stay in step with the current parent |
| MasterManagement.NavigateUp | bousai-bichiku/src/pages/MasterManagement.tsx:123-134 | -1 goes back to the root; index i keeps the breadcrumbs up to i and makes crumb i the current parent |
| MasterManagement.DrillDownThenUp | bousai-bichiku/src/pages/MasterManagement.tsx:113-134 | going down into a unit and back up to the last crumb before it restores the navigation |
| MasterManagement.Navigator.constructor | bousai-bichiku/src/pages/MasterManagement.tsx:41-44 | navigation starts at the root |
| MasterManagement.Navigator.HandleDrillDown | bousai-bichiku/src/pages/MasterManagement.tsx:113-117 | the navigation state becomes DrillDown of the old one |
| MasterManagement.Navigator.HandleNavigateUp | bousai-bichiku/src/pages/MasterManagement.tsx:123-134 | the navigation state becomes NavigateUp of the old one |
| MasterManagement.AddOptions | bousai-bichiku/src/pages/MasterManagement.tsx:209-215 | at the root only branches can be added; under a known unit exactly the deeper layers, shallowest first (Department and Location under a Branch, Location under a Department, nothing under a Location); nothing under an unknown parent |
| MasterManagement.NewDraft | bousai-bichiku/src/pages/MasterManagement.tsx:140-149 | a new draft has no id, the chosen layer, the current parent, an empty name and address, headcount 0 and none of the BCP fields |
| MasterManagement.SaveOrg | bousai-bichiku/src/pages/MasterManagement.tsx:163-183 | rejected without a name, then rejected for a Location without an address, saved otherwise; an existing id means update, else the id is `org_<now>`; the headcount defaults to 0; the address, location, target days, capacity, contact, guideline URL, target people and ordinance figure are copied from the draft |
| MasterManagement.SaveEditedUnit | bousai-bichiku/src/pages/MasterManagement.tsx:155-191 | editing a valid unit and saving it unchanged updates it with itself, its absent people count made 0 |
| MasterManagement.HandleSaveOrg | bousai-bichiku/src/pages/MasterManagement.tsx:163-191 | a rejection leaves the units alone; an update replaces by id; a new unit is appended |
| MasterManagement.HandleSaveProduct | bousai-bichiku/src/pages/MasterManagement.tsx:90-96 | editing a product with an id replaces it; otherwise the product is appended |
| MasterManagement.CreatedUnitIsListed | bousai-bichiku/src/pages/MasterManagement.tsx:107-191 | a unit created with a name and an address is saved as new and listed among the current level's children |
| BcpCalculations.DescendantsSound | bousai-bichiku/src/utils/bcpCalculations.ts:141-148 | every unit found lies somewhere below the parent |
| BcpCalculations.DescendantsOfAllSound | bousai-bichiku/src/utils/bcpCalculations.ts:144-146 | every unit the loop over the children collects lies below the parent |
| BcpCalculations.InDescendantsOfAll | bousai-bichiku/src/utils/bcpCalculations.ts:144-146 | the loop collects every descendant of every child |
| BcpCalculations.DescendantsComplete | bousai-bichiku/src/utils/bcpCalculations.ts:141-148 | every unit below the parent is found |
| BcpCalculations.BelowRanksLower | bousai-bichiku/src/utils/bcpCalculations.ts:141-148 | in an acyclic tree a unit below another ranks lower than it |
| BcpCalculations.DescendantsAreBelow | bousai-bichiku/src/utils/bcpCalculations.ts:141-148 | a unit is found exactly when it lies below the parent, and the parent is never among them |
| BcpCalculations.LastNamed | bousai-bichiku/src/utils/bcpCalculations.ts:39 | the last product with the name, as the name-keyed map keeps it; -1 exactly when there is none |
| BcpCalculations.LitresUnitConsistent | bousai-bichiku/src/utils/bcpCalculations.ts:87-94 | a content in L, or the same in ml times 1000, gives the same litres per unit, whatever the unit's case |
| BcpCalculations.UnmatchedItemsCountNothing | bousai-bichiku/src/utils/bcpCalculations.ts:75-117 | an item without a product of its name, or whose product is neither water nor food, adds neither water nor meals |
| BcpCalculations.RoundTenth | bousai-bichiku/src/utils/bcpCalculations.ts:133-134 | the result has at most one decimal and lies within half a tenth of the input (halves rounded up) |
| BcpCalculations.RoundTenthUnique | bousai-bichiku/src/utils/bcpCalculations.ts:133-134 | any one-decimal value within half a tenth of the input is the rounded value, so the two clauses of RoundTenth pin it down |
| BcpCalculations.Rate | bousai-bichiku/src/utils/bcpCalculations.ts:121-122 | 0 for a zero target, else a one-decimal value within half a tenth of current / target × 100, which RoundTenthUnique makes the rounded percentage |
| BcpCalculations.RateNotCapped | bousai-bichiku/src/utils/bcpCalculations.ts:121-122 | the rate is not capped at 100: twice the target gives 200 |
| BcpCalculations.PoolMembers | bousai-bichiku/src/utils/bcpCalculations.ts:62-68 | an item counts for a unit exactly when it is stored at the unit or at a unit below it, or its branch has the unit's name |
| BcpCalculations.StatusFor | bousai-bichiku/src/utils/bcpCalculations.ts:51-135 | water and food targets are both headcount x 3 x days; the current water and meals are those of the unit's pooled rows; each rate is the rounded percentage of its target |
| BcpCalculations.StatusPlanFigures | bousai-bichiku/src/utils/bcpCalculations.ts:53-54 | target people win over headcount, then 0; the target days, else 3 |
| BcpCalculations.StatusesOf | bousai-bichiku/src/utils/bcpCalculations.ts:51-136 | one status per target unit, in order |
| BcpCalculations.SumPool | bousai-bichiku/src/utils/bcpCalculations.ts:71-118 | the loop's totals are the litres and meals summed over the pool |
| BcpCalculations.CalculateBcpStatus | bousai-bichiku/src/utils/bcpCalculations.ts:31-139 | one status per unit with a positive headcount or target people, in unit order, each as StatusFor says |
| StockTypes.IdsOf | bousai-bichiku/src/utils/stockUtils.ts:23 | the unit ids, in order |
| StockUtils.IdsOfFilter | bousai-bichiku/src/utils/stockUtils.ts:21-23 | an id is listed exactly when a unit passing the test carries it |
| StockUtils.ChildIdsMembers | bousai-bichiku/src/utils/stockUtils.ts:21 | the child ids are exactly the ids of units directly under the branch |
| StockUtils.TwoLevelsMembers | bousai-bichiku/src/utils/stockUtils.ts:22 | the location ids are exactly the ids of units one or two levels under the branch |
| StockUtils.BranchPoolMembers | bousai-bichiku/src/utils/stockUtils.ts:18-29 | an item counts for a branch exactly when stored at the branch, a child or a grandchild of it, or its branch field is the branch id |
| StockUtils.StockTotalIgnoresOthers | bousai-bichiku/src/utils/stockUtils.ts:31-36 | items of another category or another name add nothing |
| StockUtils.GetBranchStock | bousai-bichiku/src/utils/stockUtils.ts:18-38 | the loop's total is the quantity of the branch's items of the category (and name, when given) |
| StockUtils.Ceil | bousai-bichiku/src/utils/stockUtils.ts:55-57 | the least integer not below x |
| StockUtils.ProductAlert | bousai-bichiku/src/utils/stockUtils.ts:47-60 | an alert exactly when the product has a positive daily requirement and the stock is under headcount x 3 x that requirement; it carries the rounded-up requirement and shortage, the shortage at least 1 |
| StockUtils.BranchAlertsSnoc | bousai-bichiku/src/utils/stockUtils.ts:46-62 | the branch's alerts grow product by product, in product order |
| StockUtils.AllAlertsSnoc | bousai-bichiku/src/utils/stockUtils.ts:40-67 | branches with no headcount add no alerts; the others add theirs in branch order |
| StockUtils.ShortageLe | bousai-bichiku/src/utils/stockUtils.ts:69 | larger shortages come first |
| StockUtils.BranchShortages | bousai-bichiku/src/utils/stockUtils.ts:46-62 | the loop over the products finds exactly the branch's alerts |
| StockUtils.ProductShortage | bousai-bichiku/src/utils/stockUtils.ts:47-60 | one product's pass: an alert exactly when the product has a positive daily need and the branch pool holds less than three days of it for everybody, carrying the rounded-up need and shortage |
| StockUtils.CalculateShortageAlerts | bousai-bichiku/src/utils/stockUtils.ts:7-70 | the alerts of every branch, without products none, stably sorted by shortage |
| StockUtils.BranchAlertsPositive | bousai-bichiku/src/utils/stockUtils.ts:51-59 | every alert of a branch has a shortage of at least 1 |
| StockUtils.AllAlertsPositive | bousai-bichiku/src/utils/stockUtils.ts:40-67 | every alert found has a shortage of at least 1 |
| StockUtils.ShortageAlertsOrdered | bousai-bichiku/src/utils/stockUtils.ts:69 | the result is a permutation of the alerts found, largest shortage first, alerts with equal shortage in the order found |
| StockUtils.FilterSnoc | bousai-bichiku/src/utils/stockUtils.ts:81-85 | filtering a list with one more item adds that item exactly when it passes |
| StockUtils.SummaryOfKeys | bousai-bichiku/src/utils/stockUtils.ts:81-85 | a category is in the summary exactly when the branch has an undonated item of it |
| StockUtils.QuantitiesSnoc | bousai-bichiku/src/utils/stockUtils.ts:84 | one more item adds its quantity |
| StockUtils.SummaryStepValue | bousai-bichiku/src/utils/stockUtils.ts:84 | one step adds the item's quantity to its category, when it is a live item of the branch |
| StockUtils.SummaryOfValues | bousai-bichiku/src/utils/stockUtils.ts:81-85 | each category's figure is the total quantity of the branch's undonated items of it |
| StockUtils.GetBranchStockSummary | bousai-bichiku/src/utils/stockUtils.ts:75-87 | the loop's map has exactly the categories with live stock, each with its total quantity |
| StockUtils.SortByExpiration | bousai-bichiku/src/utils/stockUtils.ts:92-98 | the same items, earliest expiration first |
| StockUtils.FilterItems | bousai-bichiku/src/utils/stockUtils.ts:103-117 | the items at the increasing positions whose items pass all three selections, every such position once: order and repeats kept |
| StockUtils.FilterItemsNothingSelected | bousai-bichiku/src/utils/stockUtils.ts:103-117 | with no branch, no storage selected and donated items shown, every item is kept |
| StockUtils.ExtractBranches | bousai-bichiku/src/utils/stockUtils.ts:122-126 | each branch of the items once, sorted |
| StockUtils.ExtractStorageLocations | bousai-bichiku/src/utils/stockUtils.ts:131-140 | each storage location of the branch's items once, sorted |
| ExpirationUtils.DaysUntilExpiration | bousai-bichiku/src/utils/expirationUtils.ts:6-17 | the whole days from today to the expiry day, so that today plus the result is the expiry day |
| ExpirationUtils.AlertLevelOf | bousai-bichiku/src/utils/expirationUtils.ts:22-27 | expired below 0 days, urgent up to 7, warning up to 30, safe beyond, each level exactly on its range |
| ExpirationUtils.AlertLevelMonotone | bousai-bichiku/src/utils/expirationUtils.ts:22-27 | fewer days left never gives a milder level |
| ExpirationUtils.ExpirationAlertOf | bousai-bichiku/src/utils/expirationUtils.ts:32-41 | the alert carries the item, its days left and the level of those days |
| ExpirationUtils.AlertsOf | bousai-bichiku/src/utils/expirationUtils.ts:49 | one alert per item, in order |
| ExpirationUtils.ByDays | bousai-bichiku/src/utils/expirationUtils.ts:51 | fewer days left first |
| ExpirationUtils.ItemsWithAlerts | bousai-bichiku/src/utils/expirationUtils.ts:46-52 | a permutation of the non-safe alerts of undonated items, fewest days first |
| ExpirationUtils.ItemsWithAlertsSound | bousai-bichiku/src/utils/expirationUtils.ts:46-52 | each alert is for an undonated item of the list, 30 days or fewer away |
| ExpirationUtils.ItemsWithAlertsComplete | bousai-bichiku/src/utils/expirationUtils.ts:46-52 | every undonated item 30 days or fewer away has its alert in the result |
| ExpirationUtils.ColoursDistinct | bousai-bichiku/src/utils/expirationUtils.ts:57-78 | each level has its own text colour and its own background colour, and no text colour is a background colour |
| ExpirationUtils.ExpirationText | bousai-bichiku/src/utils/expirationUtils.ts:83-94 | days ago when expired, 本日期限 today, 明日期限 tomorrow, else the days left |
| ExpirationUtils.NatToStringInjective | bousai-bichiku/src/utils/expirationUtils.ts:85 | distinct day counts are written differently |
| ExpirationUtils.ExpirationTextInjective | bousai-bichiku/src/utils/expirationUtils.ts:83-94 | distinct day counts give distinct texts |
| Sustainability.TransportEmission | bousai-bichiku/src/utils/sustainability.ts:22-25 | the ton-kilometre emission: weight in tonnes x distance x 0.25 |
| Sustainability.TransportEmissionMonotone | bousai-bichiku/src/utils/sustainability.ts:22-25 | more weight over the same distance never emits less |
| Sustainability.FirstNamed | bousai-bichiku/src/utils/sustainability.ts:51 | the first product with the name; none exactly when no product has it |
| Sustainability.LineFigures | bousai-bichiku/src/utils/sustainability.ts:51-69 | an unmatched line adds nothing; a matched line adds quantity x the product's CO2, disposal cost and weight, each 0 when absent |
| Sustainability.RecordTransport | bousai-bichiku/src/utils/sustainability.ts:73-75 | a record with a distance and some weight emits for that weight and distance; otherwise nothing |
| Sustainability.RoundInt | bousai-bichiku/src/utils/sustainability.ts:83 | the nearest integer, halves rounded up |
| Sustainability.RoundHundredth | bousai-bichiku/src/utils/sustainability.ts:82-85 | the result has at most two decimals and lies within half a hundredth of the input (halves rounded up) |
| Sustainability.RoundHundredthUnique | bousai-bichiku/src/utils/sustainability.ts:82-85 | any two-decimal value within half a hundredth of the input is the rounded value, so the two clauses of RoundHundredth pin it down |
| Sustainability.Rounded | bousai-bichiku/src/utils/sustainability.ts:79-86 | the net reduction (avoided minus transport), weight and transport each have at most two decimals and lie within half a hundredth of the exact figure; the cost is within half a yen |
| Sustainability.SumRecord | bousai-bichiku/src/utils/sustainability.ts:50-70 | the inner loop's totals are the record's figures |
| Sustainability.CalculateImpactMetrics | bousai-bichiku/src/utils/sustainability.ts:35-87 | the nested loops give the rounded totals over all records |
| Sustainability.UnmatchedLinesAddNothing | bousai-bichiku/src/utils/sustainability.ts:51-53 | lines naming no product add nothing to a record |
| Sustainability.UnmatchedRecordsHaveNoImpact | bousai-bichiku/src/utils/sustainability.ts:47-76 | records naming no product have neither impact nor transport |
| Sustainability.NoRecordsNoImpact | bousai-bichiku/src/utils/sustainability.ts:35-87 | without records every metric is 0 |
| Sustainability.NetReductionCanBeNegative | bousai-bichiku/src/utils/sustainability.ts:79 | the net reduction is not clamped: 40 kg without CO2 figures carried 100 km gives -1 kg |
| BranchDefaults.GeneratedId | bousai-bichiku/src/data/branchConfig.ts:90 | a generated branch id contains no white space |
| BranchDefaults.GetBranchConfig | bousai-bichiku/src/data/branchConfig.ts:81-96 | a configured branch gets its entry; any other gets a generated id, its own name, 10 people, 3 days and the standard storage places |
| BranchDefaults.FreshConfig | bousai-bichiku/src/data/branchConfig.ts:110-118 | a branch met for the first time starts with an empty storage list |
| BranchDefaults.ExtractBranchesFromItems | bousai-bichiku/src/data/branchConfig.ts:101-127 | the loop over the items builds the map that Extracted describes |
| BranchDefaults.ExtractedKeys | bousai-bichiku/src/data/branchConfig.ts:106-119 | a branch has an entry exactly when some item is in it |
| BranchDefaults.ExtractedValue | bousai-bichiku/src/data/branchConfig.ts:106-124 | each entry is the built-in or generated one with the branch's storage places, each once, in order of first appearance |
| BranchDefaults.NoRowsNoStorages | bousai-bichiku/src/data/branchConfig.ts:121-123 | a branch without items records no storage place |
| Migration.NewProduct | bousai-bichiku/src/utils/migration.ts:26-37 | a new product takes the item's name, category, unit and notes, 365 days and no barcodes |
| Migration.StockOf | bousai-bichiku/src/utils/migration.ts:41-51 | the stock row keeps the item's id, place, quantity, expiry and notes, points to the product, and takes the clock only for missing timestamps |
| Migration.FirstRowUnique | bousai-bichiku/src/utils/migration.ts:23-38 | a key has one first row |
| Migration.OrderStep | bousai-bichiku/src/utils/migration.ts:57 | the map's insertion order grows by a key exactly at its first row |
| Migration.MigrateRow | bousai-bichiku/src/utils/migration.ts:15-54 | one row: a seen key reuses its product, a new key adds a product made from this row; either way the row's stock entry points to the key's product |
| Migration.MigrationOutcome | bousai-bichiku/src/utils/migration.ts:8-60 | after the last row the products and stock rows are those of the stated result |
| Migration.ValuesInOrder | bousai-bichiku/src/utils/migration.ts:57 | the map's values in insertion order |
| Migration.MigrateByKey | bousai-bichiku/src/utils/migration.ts:8-60 | one product per distinct key, in order of first appearance, made from the key's first row with the j-th fresh id; one stock row per item, in item order, pointing to its key's product |
| Migration.MigrateFromStockItems | bousai-bichiku/src/utils/migration.ts:8-60 | the same with products keyed by `<name>-<unit>` |
| Migration.KeysAreDistinct | bousai-bichiku/src/utils/migration.ts:19-23 | the product keys are distinct and every item's key is among them, so each item finds exactly one product |
| ProductEditModal.LoadForm | bousai-bichiku/src/components/ProductEditModal.tsx:60-82 | a new product opens the blank form; an existing one opens with its own fields |
| ProductEditModal.WithCode | bousai-bichiku/src/components/ProductEditModal.tsx:118-126 | a non-empty code not yet listed is appended; otherwise the list stays; the list stays free of duplicates |
| ProductEditModal.WithCodeIdempotent | bousai-bichiku/src/components/ProductEditModal.tsx:118-126 | adding the same code twice equals adding it once |
| ProductEditModal.RemoveUndoesAdd | bousai-bichiku/src/components/ProductEditModal.tsx:118-136 | removing a code just added gives back the list before |
| ProductEditModal.RemoveKeepsDistinct | bousai-bichiku/src/components/ProductEditModal.tsx:131-136 | removal leaves the list without the code and without duplicates |
| ProductEditModal.SubmitForm | bousai-bichiku/src/components/ProductEditModal.tsx:142-170 | refused with the required-fields message exactly when the name or the unit is empty; otherwise the product carries the form's fields, the existing id or a fresh one, and 365 days when none is given |
| ProductEditModal.SaveUnchanged | bousai-bichiku/src/components/ProductEditModal.tsx:60-170 | opening a product and saving it without change gives back the same product |
| ProductEditModal.BlankFormRefused | bousai-bichiku/src/components/ProductEditModal.tsx:142-148 | the blank form cannot be saved |
| ProductEditModal.ProductEditor.constructor | bousai-bichiku/src/components/ProductEditModal.tsx:35-51 | the editor starts with the blank form and an empty code field |
| ProductEditModal.ProductEditor.Open | bousai-bichiku/src/components/ProductEditModal.tsx:60-82 | opening loads the form and clears the code field |
| ProductEditModal.ProductEditor.TypeBarcode | bousai-bichiku/src/components/ProductEditModal.tsx:51 | typing changes the code field only |
| ProductEditModal.ProductEditor.AddBarcode | bousai-bichiku/src/components/ProductEditModal.tsx:118-126 | a new code is added and the field cleared; otherwise nothing changes; no duplicate is introduced |
| ProductEditModal.ProductEditor.RemoveBarcode | bousai-bichiku/src/components/ProductEditModal.tsx:131-136 | the code is removed and the field kept |
| ProductEditModal.ProductEditor.Submit | bousai-bichiku/src/components/ProductEditModal.tsx:142-170 | refused exactly when name or unit is empty; a saved product has the form's codes |
| StorageFilter.Toggle | bousai-bichiku/src/components/StorageFilter.tsx:14-20 | a selected place is removed, another one appended; only that place's membership flips; no duplicate is introduced |
| StorageFilter.ToggleTwice | bousai-bichiku/src/components/StorageFilter.tsx:14-20 | toggling an unselected place twice restores the selection |
| StorageFilter.PlaceChips | bousai-bichiku/src/components/StorageFilter.tsx:38-46 | one chip per place, active exactly when selected |
| StorageFilter.Render | bousai-bichiku/src/components/StorageFilter.tsx:26-49 | nothing without places; otherwise the すべて chip, active when nothing is selected, then the place chips |
| StorageFilter.SelectAllLightsOnlyAll | bousai-bichiku/src/components/StorageFilter.tsx:22-41 | after choosing すべて only that chip is active |
| StorageFilter.ToggleFlipsOneChip | bousai-bichiku/src/components/StorageFilter.tsx:14-46 | toggling a place flips its chip and no other |
| ShortageAlert.BranchesOf | bousai-bichiku/src/components/ShortageAlert.tsx:13-19 | one entry per alert, the k-th being the k-th alert's branch |
| ShortageAlert.GroupByBranch | bousai-bichiku/src/components/ShortageAlert.tsx:13-19 | the reduce builds the groups that Grouped describes |
| ShortageAlert.GroupedShape | bousai-bichiku/src/components/ShortageAlert.tsx:13-19 | the branches appear once each, in order of first alert; each branch's group is exactly its alerts, in order |
| ShortageAlert.NoneAtBranch | bousai-bichiku/src/components/ShortageAlert.tsx:13-19 | a branch never met has no alerts |
| ShortageAlert.BranchesOfMembers | bousai-bichiku/src/components/ShortageAlert.tsx:13-19 | a branch is listed exactly when one of the alerts is for it |
| ShortageAlert.Labels | bousai-bichiku/src/components/ShortageAlert.tsx:36 | each alert is labelled by its item name, else its category |
| ShortageAlert.LineOf | bousai-bichiku/src/components/ShortageAlert.tsx:33-39 | a branch line names at most two alerts and counts the rest exactly when there are more than two |
| ShortageAlert.LinesOf | bousai-bichiku/src/components/ShortageAlert.tsx:32-40 | one line per branch, in order |
| ShortageAlert.ViewOf | bousai-bichiku/src/components/ShortageAlert.tsx:29-45 | the branch count, at most three branch lines, and the remaining branches counted exactly when there are more than three |
| ShortageAlert.Render | bousai-bichiku/src/components/ShortageAlert.tsx:9-57 | nothing without alerts; otherwise the distinct branches counted and the first three shown with their own alerts |
| ShortageAlert.GroupedView | bousai-bichiku/src/components/ShortageAlert.tsx:9-57 | the banner of the grouping counts the distinct branches, and its k-th line is the k-th branch with that branch's own alerts in order |
| ShortageAlert.BranchCountIsDistinctBranches | bousai-bichiku/src/components/ShortageAlert.tsx:29 | the count is of the branches that have an alert |
| AlertBanner.Banner | bousai-bichiku/src/components/AlertBanner.tsx:10-78 | nothing without alerts; otherwise the three level counts, the colour of the first alert, exactly the first three alerts listed (all of them when there are at most three), and the number of the others, length minus 3, exactly when there are more than three |
| AlertBanner.CountsPartition | bousai-bichiku/src/components/AlertBanner.tsx:13-15 | the four level counts add up to the number of alerts |
| AlertBanner.CountsCoverPending | bousai-bichiku/src/components/AlertBanner.tsx:13-15 | with no safe alert, the three counts add up to the number of alerts |
| AlertBanner.SortedSeverity | bousai-bichiku/src/components/AlertBanner.tsx:17-19 | in a list sorted by days left, the first alert is at least as severe as any |
| AlertBanner.BannerShowsMostUrgent | bousai-bichiku/src/components/AlertBanner.tsx:17-19 | fed the pending alerts, the banner's colour is that of the most severe level present, and its counts cover every alert |
| BCPDashboard.Band | bousai-bichiku/src/pages/BCPDashboard.tsx:172-178 | one of the five bands |
| BCPDashboard.RateColor | bousai-bichiku/src/pages/BCPDashboard.tsx:172-178 | the colour of the rate's band; green exactly from 100 %, red exactly below 30 % |
| BCPDashboard.BandMonotone | bousai-bichiku/src/pages/BCPDashboard.tsx:172-178 | a higher rate never falls in a lower band |
| BCPDashboard.SameColorSameBand | bousai-bichiku/src/pages/BCPDashboard.tsx:172-178 | two rates share a colour exactly when they share a band |
| BCPDashboard.GaugeOf | bousai-bichiku/src/pages/BCPDashboard.tsx:108-122 | the bar is as wide as the rate, capped at 100; the label shows the uncapped rate, white above 50 %, else the resource's own colour |
| BCPDashboard.OverfullGauge | bousai-bichiku/src/pages/BCPDashboard.tsx:108-122 | from 100 % the bar is full and green while the label keeps the real rate |
| BCPDashboard.DoubleWaterGauge | bousai-bichiku/src/pages/BCPDashboard.tsx:108-122 | twice the water target fills the bar and labels it 200 % |
| BCPDashboard.CardsOf | bousai-bichiku/src/pages/BCPDashboard.tsx:73-160 | one card per status, in order, with its water and food gauges |
| BCPDashboard.DashboardOf | bousai-bichiku/src/pages/BCPDashboard.tsx:67-72 | the setup message exactly when there is no status, otherwise the cards |
| BCPDashboard.StockItemsFor | bousai-bichiku/src/pages/BCPDashboard.tsx:35 | the given items, or the sample items when none are given |
| BCPDashboard.Render | bousai-bichiku/src/pages/BCPDashboard.tsx:31-39 | the page shows the setup message exactly when no unit has a positive headcount or target people, and otherwise one card per such unit |
| MealTypes.Flip | vibe-cooking/src/App.tsx:224 | toggling always gives the other day type |
| MealTypes.ArrangementLog.constructor | vibe-cooking/src/components/RecipeDetailModal.tsx:50-56 | a log holds the given entries |
| Calendar.Weekday | vibe-cooking/src/App.tsx:43-46 | a day of the week, 0 to 6 |
| Calendar.WeekdayShift | vibe-cooking/src/App.tsx:43-46 | whole weeks later is the same weekday |
| Calendar.WeekStart | vibe-cooking/src/App.tsx:43-46 | the week starts on a Tuesday within the six days up to today |
| Calendar.WeekStartOnTuesday | vibe-cooking/src/App.tsx:45 | on a Tuesday the week starts today, and only then |
| Calendar.WeekStartLatest | vibe-cooking/src/App.tsx:45 | the start is the latest Tuesday not after today |
| Calendar.WeekStartShift | vibe-cooking/src/App.tsx:43-46 | a week later, the start is seven days later |
| PlannerApp.Classify | vibe-cooking/src/App.tsx:117-125 | no target when the drop is over nothing; the shelf exactly for its id; a slot exactly for any other id containing a dash |
| PlannerApp.DatePart | vibe-cooking/src/App.tsx:137 | the first ten characters of the slot id, or all of a shorter one |
| PlannerApp.SlotPart | vibe-cooking/src/App.tsx:138 | what follows the eleventh character, empty for a shorter id |
| PlannerApp.DecodeSlot | vibe-cooking/src/App.tsx:137-147 | the date part; side, main or soup when the rest starts with it, else the rest itself; the second side slot exactly for side-2 |
| PlannerApp.FindVictim | vibe-cooking/src/App.tsx:128-132 | the index-th plan of that date and slot type, in table order; none exactly when there are not that many |
| PlannerApp.Ids | vibe-cooking/src/App.tsx:21-27 | the plan ids, in order |
| PlannerApp.WithRecipe | vibe-cooking/src/App.tsx:153-156 | the plan with the id takes the recipe, all others unchanged |
| PlannerApp.WithoutId | vibe-cooking/src/App.tsx:175-178 | exactly the plans with another id remain |
| PlannerApp.Moved | vibe-cooking/src/App.tsx:209-215 | the plan with the id takes the date and slot type, all others unchanged |
| PlannerApp.WithDayType | vibe-cooking/src/App.tsx:230-233 | every plan of the date takes the day type, all others unchanged |
| PlannerApp.FilterWithRecipe | vibe-cooking/src/App.tsx:128-156 | replacing a recipe commutes with a selection that ignores recipes |
| PlannerApp.DropRecipeFillsSlot | vibe-cooking/src/App.tsx:135-170 | after a recipe drop the target slot (or the next free one) holds the recipe; an occupied slot is overwritten in place, an empty one gets a new work-day plan |
| PlannerApp.DropOnShelfDeletes | vibe-cooking/src/App.tsx:173-181 | dropping a plan on the shelf removes exactly that plan |
| PlannerApp.DropPlanReplaces | vibe-cooking/src/App.tsx:184-218 | moving a plan onto another's slot deletes the other and moves the plan there |
| PlannerApp.WithoutOneShrinks | vibe-cooking/src/App.tsx:206 | deleting an existing id removes exactly one plan |
| PlannerApp.MovedContains | vibe-cooking/src/App.tsx:209-215 | the moved plan is in the table with its new date and slot type |
| PlannerApp.DropPlanOnItself | vibe-cooking/src/App.tsx:201-202 | dropping a plan on its own slot changes nothing |
| PlannerApp.AfterDropKeepsIdsDistinct | vibe-cooking/src/App.tsx:112-219 | every drop keeps the plan ids unique |
| PlannerApp.DropRecipeKeepsIdsDistinct | vibe-cooking/src/App.tsx:134-170 | a recipe drop keeps the plan ids unique when the new plan's id is unused |
| PlannerApp.DropPlanKeepsIdsDistinct | vibe-cooking/src/App.tsx:183-218 | moving a plan onto a slot keeps the plan ids unique |
| PlannerApp.DropRecipeOnSlot | vibe-cooking/src/App.tsx:134-170 | the recipe-card case computes the table DropRecipe describes: the addressed plan takes the recipe, or a work-day plan is added |
| PlannerApp.DropPlanOnSlot | vibe-cooking/src/App.tsx:183-218 | the plan-card case computes the table DropPlan describes, including the early return when the plan is dropped onto itself |
| PlannerApp.DropOutcome | vibe-cooking/src/App.tsx:117-218 | a drop onto nothing changes nothing; otherwise the three cases, which exclude one another, give the table AfterDrop describes |
| PlannerApp.IdsWithRecipe | vibe-cooking/src/App.tsx:153-156 | replacing a recipe keeps the ids |
| PlannerApp.IdsMoved | vibe-cooking/src/App.tsx:209-215 | moving a plan keeps the ids |
| PlannerApp.ToggledDayType | vibe-cooking/src/App.tsx:221-236 | every plan of the date takes the other type, all others unchanged, ids kept |
| PlannerApp.ToggleTwice | vibe-cooking/src/App.tsx:221-236 | toggling a day twice restores the table |
| PlannerApp.Planner.constructor | vibe-cooking/src/App.tsx:35-46 | the planner opens on the week starting on the latest Tuesday |
| PlannerApp.Planner.PreviousWeek | vibe-cooking/src/App.tsx:320 | the week moves back seven days; the plans stay |
| PlannerApp.Planner.NextWeek | vibe-cooking/src/App.tsx:321 | the week moves on seven days; the plans stay |
| PlannerApp.Planner.DragEnd | vibe-cooking/src/App.tsx:112-219 | the table becomes the one AfterDrop describes and keeps its ids unique |
| PlannerApp.Planner.DeletePlan | vibe-cooking/src/App.tsx:91-95 | exactly the plan with the id leaves the table |
| PlannerApp.Planner.ToggleDayType | vibe-cooking/src/App.tsx:221-236 | the table becomes ToggledDayType of the old one |
| DayColumn.SlotIds | vibe-cooking/src/components/DayColumn.tsx:83-96 | a day has four slots |
| DayColumn.SlotIdsRoundTrip | vibe-cooking/src/components/DayColumn.tsx:83-96 | each slot id the column draws decodes, in the drop handler, back to its date, slot type and index, and counts as a slot target |
| DayColumn.NthOfType | vibe-cooking/src/components/DayColumn.tsx:45-47 | the n-th plan of the slot type, in list order; none exactly when there are not that many |
| DayColumn.DragIdRoundTrip | vibe-cooking/src/components/DayColumn.tsx:84 | a shown plan's drag id is read back as a plan card with its own id, never as a recipe card |
| DayColumn.Column | vibe-cooking/src/components/DayColumn.tsx:39-110 | the slots show the first main, the first and second side and the first soup; the gacha button exactly when there is no soup; the weekend look exactly on Fridays and Saturdays; the work icon exactly on work days |
| DayColumn.GachaIffNoSoup | vibe-cooking/src/components/DayColumn.tsx:96-103 | the gacha button is offered exactly when no plan of the day is a soup |
| WeeklyBoard.DayTypeOf | vibe-cooking/src/components/WeeklyBoard.tsx:26-27 | the day type of the first setting for the date, work without one |
| WeeklyBoard.Board | vibe-cooking/src/components/WeeklyBoard.tsx:16-40 | seven entries, day i of the week holding its date key, its day type and its plans |
| WeeklyBoard.Columns | vibe-cooking/src/components/WeeklyBoard.tsx:29-38 | one column per entry, in order |
| WeeklyBoard.PlansOnTheirDay | vibe-cooking/src/components/WeeklyBoard.tsx:22-23 | a plan is listed on a day exactly when it is in the table with that day's date |
| WeeklyBoard.CountOnDaysPartition | vibe-cooking/src/components/WeeklyBoard.tsx:21-23 | with distinct date keys, the per-day counts add up to the plans dated on one of the keys |
| WeeklyBoard.WeekKeys | vibe-cooking/src/components/WeeklyBoard.tsx:16-22 | the date keys of the seven days |
| WeeklyBoard.TotalShownIsCountOnDays | vibe-cooking/src/components/WeeklyBoard.tsx:21-23 | the plans listed over the days are the per-day counts added up |
| WeeklyBoard.WeekPartition | vibe-cooking/src/components/WeeklyBoard.tsx:16-40 | the seven day lists together hold exactly as many plans as the table has dated in the week |
| WeeklyBoard.ShownIsVictim | vibe-cooking/src/components/WeeklyBoard.tsx:21-38 | the plan a slot shows is the one a drop onto that slot replaces |
| WeeklyBoard.ToggleFromBoard | vibe-cooking/src/components/WeeklyBoard.tsx:35 | toggling a day from its column gives every plan listed that day the other type |
| RecipeDetail.IngredientsText | vibe-cooking/src/components/RecipeDetailModal.tsx:39 | no ingredients give an empty text; a list gives its entries one per line |
| RecipeDetail.LoadedFields | vibe-cooking/src/components/RecipeDetailModal.tsx:31-41 | each form field is the recipe's value, or its default (empty text, main dish, rating 3, no frequency, 0 minutes, not hibernating) when the value is missing or falsy |
| RecipeDetail.SplitLines | vibe-cooking/src/components/RecipeDetailModal.tsx:68 | the saved ingredients are exactly the non-blank lines of the text, none holding a line break |
| RecipeDetail.IngredientsRoundTrip | vibe-cooking/src/components/RecipeDetailModal.tsx:39-68 | a list of non-blank single-line ingredients loaded into the form and saved again comes back unchanged |
| RecipeDetail.BlankIngredientDropped | vibe-cooking/src/components/RecipeDetailModal.tsx:39-68 | a blank ingredient does not survive the load-save round trip |
| RecipeDetail.AppendedLog | vibe-cooking/src/components/RecipeDetailModal.tsx:50-56 | the arrangement log keeps its entries and gains one dated, trimmed entry exactly when the new text is not blank |
| RecipeDetail.UpdateOf | vibe-cooking/src/components/RecipeDetailModal.tsx:58-72 | the update sent carries the recipe id, the form's fields, the split ingredients and the new log |
| RecipeDetail.LoadBareRecipe | vibe-cooking/src/components/RecipeDetailModal.tsx:31-41 | a recipe with only a name loads as the empty form with that name |
| RecipeDetail.LoadThenSave | vibe-cooking/src/components/RecipeDetailModal.tsx:31-72 | saving a freshly loaded recipe whose values are all given and truthy sends back the same values |
| RecipeDetail.AppendedTwice | vibe-cooking/src/components/RecipeDetailModal.tsx:50-56 | saving twice with the same non-blank text logs it twice, after the original entries |
| RecipeDetail.DetailModal.constructor | vibe-cooking/src/components/RecipeDetailModal.tsx:17-27 | the form starts empty, with rating 3 and nothing loading |
| RecipeDetail.DetailModal.Load | vibe-cooking/src/components/RecipeDetailModal.tsx:30-42 | a recipe fills the form with its loaded fields; without one the form stays |
| RecipeDetail.DetailModal.Edit | vibe-cooking/src/components/RecipeDetailModal.tsx:17-27 | the form and the new-arrangement text take the edited values |
| RecipeDetail.DetailModal.Submit | vibe-cooking/src/components/RecipeDetailModal.tsx:44-83 | without a client or a recipe nothing happens; otherwise the log is extended in place and the update sent, and a database error raises the prefixed alert and keeps the modal open, while success closes it and clears the new-arrangement text |
| RecipeDetail.DetailModal.Delete | vibe-cooking/src/components/RecipeDetailModal.tsx:85-99 | the recipe is deleted exactly when there is a client, a recipe and a confirmation; the modal closes on success and alerts on a database error |
| SoupGacha.Candidates | vibe-cooking/src/components/SoupGachaModal.tsx:29-37 | outside miso mode every recipe is a candidate; in miso mode exactly the recipes whose name mentions 味噌, みそ or 豚汁 |
| SoupGacha.NoCandidatesIff | vibe-cooking/src/components/SoupGachaModal.tsx:29-45 | the draw has nothing to pick from exactly when there are no recipes, or in miso mode when none is a miso soup |
| SoupGacha.MisoCandidatesAmongAll | vibe-cooking/src/components/SoupGachaModal.tsx:31-37 | in miso mode all candidates are miso soups and there are as many candidates as miso soups |
| SoupGacha.PickIndex | vibe-cooking/src/components/SoupGachaModal.tsx:55-62 | a random number in [0, 1) picks an index below the pool size, the floor of random times size |
| SoupGacha.PickReachesAll | vibe-cooking/src/components/SoupGachaModal.tsx:55-62 | every pool entry can be picked by some random number |
| SoupGacha.SpinningLabel | vibe-cooking/src/components/SoupGachaModal.tsx:142 | the spinning text is the displayed recipe's name, or ... when there is none or it is empty |
| SoupGacha.Gacha.constructor | vibe-cooking/src/components/SoupGachaModal.tsx:13-17 | the modal starts ready, nothing shown, miso mode off, an empty pool |
| SoupGacha.Gacha.Open | vibe-cooking/src/components/SoupGachaModal.tsx:20-27 | opening resets the step, the display, the result and miso mode, keeping the pool |
| SoupGacha.Gacha.ToggleMiso | vibe-cooking/src/components/SoupGachaModal.tsx:115 | the switch flips miso mode and nothing else |
| SoupGacha.Gacha.Start | vibe-cooking/src/components/SoupGachaModal.tsx:29-49 | without candidates the alert for the mode is raised and the state stays; otherwise the candidates become the pool and spinning starts |
| SoupGacha.Gacha.Tick | vibe-cooking/src/components/SoupGachaModal.tsx:54-57 | each interval puts a pool entry on the display, leaving pool, result and step alone |
| SoupGacha.Gacha.Finish | vibe-cooking/src/components/SoupGachaModal.tsx:59-66 | the timeout's final pick from the pool becomes both the result and the display, and the result step is shown |
| SoupGacha.Gacha.Retry | vibe-cooking/src/components/SoupGachaModal.tsx:163 | retrying goes back to ready and keeps everything else |
| SoupGacha.Gacha.Confirm | vibe-cooking/src/components/SoupGachaModal.tsx:157 | the recipe confirmed is the drawn result, a member of the pool |
| SoupGacha.Draw | vibe-cooking/src/components/SoupGachaModal.tsx:29-66 | a draw yields a recipe exactly when there are candidates, and that recipe is one of them |
| ExtractRecipe.ParseDuration | vibe-cooking/api/extract-recipe.ts:44-53 | a missing or empty duration is 0 minutes |
| ExtractRecipe.DateOnlyIsZero | vibe-cooking/api/extract-recipe.ts:46-47 | a duration without a time part does not match the pattern and counts 0 minutes |
| ExtractRecipe.ParseDurationOf | vibe-cooking/api/extract-recipe.ts:44-53 | any well-formed ISO 8601 duration with a time part counts 60 minutes per hour plus its minutes; years, months, weeks, days and seconds are ignored |
| ExtractRecipe.NinetyMinutes | vibe-cooking/api/extract-recipe.ts:43-53 | PT1H30M is 90 minutes |
| ExtractRecipe.Graphs | vibe-cooking/api/extract-recipe.ts:61 | an array document is its own list of nodes, an object with @graph is that graph, any other object is a one-node list |
| ExtractRecipe.IngredientsOf | vibe-cooking/api/extract-recipe.ts:71-75 | a list of ingredients is taken as it is, a single non-empty one becomes a one-entry list, a missing or empty one leaves the ingredients as they were |
| ExtractRecipe.ApplyRecipe | vibe-cooking/api/extract-recipe.ts:66-83 | the recipe node sets title and description (empty when missing), the ingredients when present, and the time from totalTime, else from cookTime plus prepTime when either is given, else leaves it |
| ExtractRecipe.ReadJsonLd | vibe-cooking/api/extract-recipe.ts:56-88 | scanning the JSON-LD scripts in document order applies each script's first recipe node to the data |
| ExtractRecipe.LastRecipeWins | vibe-cooking/api/extract-recipe.ts:56-88 | the title and description come from the last script holding a recipe node |
| ExtractRecipe.NoRecipeNoChange | vibe-cooking/api/extract-recipe.ts:56-88 | with no recipe node in any script (or none parsing) the data stays at its initial empty values |
| ExtractRecipe.TitleFallback | vibe-cooking/api/extract-recipe.ts:91-93 | an empty title falls back to og:title when given, else to the title element's text |
| ExtractRecipe.Scraped | vibe-cooking/api/extract-recipe.ts:99-103 | the scraped ingredients are trimmed and never empty |
| ExtractRecipe.ScrapedMembers | vibe-cooking/api/extract-recipe.ts:101-103 | a text is scraped exactly when it is the non-empty trim of some list item |
| ExtractRecipe.Scrape | vibe-cooking/api/extract-recipe.ts:99-104 | the loop over the ingredient list collects exactly the scraped ingredients, in order |
| ExtractRecipe.Extracted | vibe-cooking/api/extract-recipe.ts:35-104 | the answer is the JSON-LD data with the title fallback, and the scraped list in place of missing ingredients |
| ExtractRecipe.Handle | vibe-cooking/api/extract-recipe.ts:10-120 | no url gives 400 with the missing-url error, a failed fetch gives 500 with its message, otherwise 200 with the extracted data |
| FetchTitle.FindTitle | vibe-cooking/api/fetch-title.ts:33-49 | the title is og:title when it matched, else the title element, else the first h1, and it is empty exactly when none matched |
| FetchTitle.CleanTitleShape | vibe-cooking/api/fetch-title.ts:52-60 | a cleaned title has no white space at either end and no white space other than single spaces |
| FetchTitle.NoAmpersandUnchanged | vibe-cooking/api/fetch-title.ts:53-57 | a text without an ampersand is left as it is by the reference decoding |
| FetchTitle.NoAmpersandNoPattern | vibe-cooking/api/fetch-title.ts:53-57 | a text without an ampersand contains none of the references |
| FetchTitle.DoubleEscapedLessThan | vibe-cooking/api/fetch-title.ts:53-54 | the ampersand is decoded first, so a doubly escaped less-than becomes a plain less-than |
| FetchTitle.LastThreeUnchanged | vibe-cooking/api/fetch-title.ts:55-57 | the last three replacements change nothing in a text without an ampersand |
| FetchTitle.Handle | vibe-cooking/api/fetch-title.ts:9-74 | no url gives 400 with the missing-url error, a failed fetch gives 500 with its message or the default one, otherwise 200 with the cleaned title, or an empty one when nothing matched |
| StockTypes.CategoryNameInjective | bousai-bichiku/src/types/index.ts:27-33 | the six category labels are pairwise distinct, so a label names one category |
| Sorting.Insert | bousai-bichiku/src/utils/stockUtils.ts:69 | inserting into a list keeps its elements and adds the new one |
| Sorting.SortBy | bousai-bichiku/src/utils/stockUtils.ts:69 | sorting returns a permutation of its input |
| Sorting.InsertSorted | bousai-bichiku/src/utils/stockUtils.ts:69 | inserting into a sorted list under a total preorder keeps it sorted |
| Sorting.SortBySorted | bousai-bichiku/src/utils/stockUtils.ts:69 | the sorted list is ordered by the comparison when it is a total preorder |
| Sorting.InsertTies | bousai-bichiku/src/utils/stockUtils.ts:69 | inserting keeps the relative order of elements comparing equal |
| Sorting.SortByStable | bousai-bichiku/src/utils/stockUtils.ts:69 | the sort is stable: elements comparing equal keep their input order |
| Sorting.ByKey | bousai-bichiku/src/utils/expirationUtils.ts:51 | a comparator by a numeric key orders by that key |
| Sorting.ByKeyTotal | bousai-bichiku/src/utils/expirationUtils.ts:51 | ordering by a numeric key is a total preorder |
| Sorting.LexLeTotal | bousai-bichiku/src/utils/stockUtils.ts:125 | any two strings are comparable in code-unit order |
| Sorting.LexLeTrans | bousai-bichiku/src/utils/stockUtils.ts:125 | code-unit order is transitive |
| Sorting.LexLeAntisymmetric | bousai-bichiku/src/utils/stockUtils.ts:125 | two strings each ordered before the other are equal |
| Sorting.LexTotalPreorder | bousai-bichiku/src/utils/stockUtils.ts:125 | code-unit order is a total preorder |
| Sorting.SortStrings | bousai-bichiku/src/utils/stockUtils.ts:125 | the default sort of strings returns a permutation in ascending code-unit order |

## Left out

- Persistence and I/O are not modelled: localStorage in the master store, every Supabase call, FileReader in `loadCSVFromFile`, and Blob downloads. Tables are in-memory sequences, and database outcomes are parameters (an error message or none).
- The AI calls are not modelled, because they call foreign services: the Gemini helpers, the flyer analysis and `handleAiPredict` in the product dialog.
- The network is not modelled. The endpoints' `fetch`, the TextDecoder, cheerio and the regular expressions are replaced by their results, which are inputs.
- The clock, `Math.random`, the ids built from them, and the timers of the soup gacha are parameters. The gacha's interval and timeout are the methods `Tick` and `Finish`.
- Floating point is not modelled. Litres, meals, rates, CO2, costs and weights are Dafny `real`s. `Math.round(x * 10) / 10`, `Math.ceil` and `toFixed` are exact rounding on reals, so IEEE-754 effects are not captured.
- `parseInt` and `parseFloat` are exact on the digits they read, so precision loss on very large numbers is not modelled.
- Date parsing (`new Date(string)`) and date-fns formatting are functions given by the caller, over integer day numbers. An invalid date, which gives NaN in JavaScript, is not modelled.
- `formatDate` in expirationUtils.ts is not modelled, because it depends on the locale.
- Case folding is ASCII only. This is exact for the header and category comparisons against ASCII literals, but not for other scripts.
- Strings compare by Dafny character order, where JavaScript compares UTF-16 code units. The two agree outside the astral planes.
- Object and record key order is modelled as insertion order, as JavaScript uses it for non-numeric keys. Keys that look like array indices are not modelled. Neither are keys that name a property every JavaScript object inherits (`constructor`, `toString`, `__proto__`, ...): as a branch or location name in the grouping of ShortageAlert.tsx or in `extractBranchesFromItems` of branchConfig.ts, such a key finds the inherited value, which is truthy, so the code skips the initialisation (the grouping then fails at `push`, and the branch is never added to the map), while the model's maps treat it as any other name.
- Headcounts, target people, target days and capacities are whole numbers (`int`). `handleSaveOrg` (MasterManagement.tsx:173) stores `Number(headcount) || 0`, which would keep a fraction such as 2.5, and a fractional headcount would give fractional BCP targets. The model cannot express either.
- Acyclicity of the organisation tree is not checked by the code, and recursion on a cycle would not end. `findDescendants` therefore takes a rank on unit ids, lower for every child than for its parent, as a precondition.
- Migration assumes the fresh product ids from `Math.random` are distinct. A collision is not modelled.
- The image field of the extracted recipe is not modelled, because it can hold any JSON value. JSON-LD fields are strings or lists of strings; other JSON shapes are not modelled.
- A JSON-LD script that fails to parse is modelled as a script with no content.
- The week fetch in the planner is not modelled: its date-range query, the join of recipe names and its errors. The board is given the plan table.
- The planner's `handleDragStart` only records the dragged card for the overlay, so it is not modelled.
- WeeklyBoard is modelled against its own props. The planner renders it without day settings or the gacha callback, and the model does not copy that call site.
- The barcode-scan handler is not modelled, because it is UI navigation around a lookup. This covers the scan in the stock app and the `newBarcode` effect of the master screen.
- The confirm dialogs before deleting a product or a unit are not modelled. The deletions are the store's methods.
- The product dialog's category check on save is not modelled, because the field always holds a category and the check never fails. Its per-field setters are the form value passed in.
- The move dialog sets the destination branch twice on open, and the first value is overwritten at once. Only the second is modelled.
- The recipe detail form's loading flag is modelled only at the end of each handler. Its value during the awaits is not.
- `generateMockDonationRecords` in sustainability.ts is not modelled, because it builds sample data.
- The `dailyRequirementPerPerson` table in branchConfig.ts is not modelled, because no modelled operation reads it.
- Rendering is not modelled: JSX, CSS classes, animations and drag sensors. Only the values the components compute from their props are kept.
- ExtractRecipe.Handle: the error message is always the thrown error's message, since everything thrown inside the handler is an `Error`. The fallback text for other thrown values is not modelled.
