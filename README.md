# Kanban cards to spreadsheet rows, spreadsheet rows to reports — a Dafny model

The repository keeps a register of cable-route works. Each work is a card on a kanban
board. Its title carries the address, a work number and sometimes a list of transit
addresses, and its description carries "Label: value" fields. Sync scripts parse the cards
and write them into the rows of a spreadsheet, finding the row of a work by its number and
merging the card into it under column-ownership rules. Report generators read those rows
back: they filter them by month, status and executor, split addresses into a main part and
transit parts, lay out tables, number their rows, total their prices and spell amounts
in Russian words. A small separate script rewrites the `<script` tags of an HTML page.

The model has one Dafny module per source file of that core, plus shared modules:

| module | models |
|---|---|
| `Wrappers`, `Text`, `Lists`, `Scan`, `Dates` | Python strings (`lower`, `strip`, `split`, `join`, `in`, `find`, `int()`), list comprehensions, hand-written matchers for each regular expression, the calendar |
| `Sheet` | a worksheet: a `Worksheet` class holding a map from (row, column) to a cell and `maxRow`, and the grids the report generators read |
| `CardParser`, `CardSync` | `arhive/sync_trello_severen.py` |
| `SeverenParser`, `SeverenSync` | `files/sync_trello_severen.py` |
| `TrelloV2` | `trello_to_excel_v2.py` |
| `ActGenerator` | `windows/generate_act.py` |
| `DocumentGenerator` | `document_generator.py` |
| `MonthlyReports` | `report_generator_v2.py` |
| `ArchivedReport` | `_archive_old_files/report_generator_v2.py` |
| `Transits`, `ReportLayout`, `TransitReport` | `report_generator.py` (the transit split is shared with the next two) |
| `EnhancedGenerator` | `enhanced_generator.py` |
| `AnalyzeExcel` | `analyze_excel.py` |
| `ScriptOptimizer` | `optimize_scripts.py` |

Each regular expression is a matcher written by hand for that pattern. A matcher tries the
pattern at one position, and `Scan.Search` gives the leftmost match as `re.search` does.
Greedy runs give characters back where the rest of the pattern needs them (`Scan.Backtrack`).
Case-insensitive matching folds ASCII and Russian letters (`Text.Lower`). Amounts are integers. The clock, the network, files, and the
spreadsheet and document libraries are parameters or are left out (see "Left out").

Loops that change state are methods with loop invariants. Each one is proved against a
function that states its result, and the properties the source promises are lemmas about
those functions. Fixed texts and tables that the proofs never need to look into (column
headers, number words, the tokens of the HTML rewriter) are gathered in records such as
`ReportLayout.Labels`, `DocumentGenerator.Vocabulary` and `ScriptOptimizer.Rules`. The
definitions are stated for any such record, and a constant holds the one the source uses.

## Model

| member | source | states |
|---|---|---|
| CardParser.TaskNoAt | arhive/sync_trello_severen.py:187 | a match of `Задание\s*[№#]?\s*(\d+)` captures a whole number that starts after the match position |
| CardParser.WorkNoAt | arhive/sync_trello_severen.py:188 | the same for `Номер\s+работы[:\s]*(\d+)` |
| CardParser.NumberSignAt | arhive/sync_trello_severen.py:189 | the same for `№\s*(\d+)` |
| CardParser.BareNumberAt | arhive/sync_trello_severen.py:190 | `\b(\d{5,6})\b` captures a whole number of five or six digits |
| CardParser.FirstPatternFrom | arhive/sync_trello_severen.py:193-198 | the patterns are tried in their fixed order: the result is the capture of the first one that occurs anywhere, a whole number of the title, and there is none exactly when no remaining pattern occurs |
| CardParser.PatternAt | arhive/sync_trello_severen.py:187-190 | a match of any of the four work-number patterns captures a whole number of the title |
| CardParser.ExtractWorkNumber | arhive/sync_trello_severen.py:184-198 | the work number is "" or a run of digits that is a whole number written in the title |
| CardParser.ExtractWorkNumberFirst | arhive/sync_trello_severen.py:184-198 | the work number is "" exactly when none of the four patterns occurs, and otherwise the capture of the leftmost match of the first pattern, in order, that occurs |
| CardParser.TransitAt | arhive/sync_trello_severen.py:208-209 | the lazy capture after "Транзитные адреса" is non-empty, lies after the marker and holds no '.' |
| CardParser.TaskSuffixAt | arhive/sync_trello_severen.py:223 | a ". Задание/Номер работы/№ N…" suffix match runs to the end of the text, or to just before its final newline |
| CardParser.RemoveTaskSuffix | arhive/sync_trello_severen.py:223 | removing the suffix never lengthens the address |
| CardParser.RemoveTaskSuffixShape | arhive/sync_trello_severen.py:223 | the result is the address, or the address cut at one of its full stops (keeping a final newline) |
| CardParser.ParseAddress | arhive/sync_trello_severen.py:200-226 | the main address has no '.' or ' ' at either end; every transit address is non-empty, stripped and comma-free; with no marker match the transit list is empty and the address is the whole title without its task suffix; with a match the transits are the comma list after the marker and the address the text before it, stripped and without its task suffix |
| CardParser.ParseAddressWritten | arhive/sync_trello_severen.py:200-226 | a title written as a stripped address, ". Транзитные адреса: ", a list text and a final full stop parses to that address and the comma pieces of the list |
| CardParser.ParseAddressRoundTrip | arhive/sync_trello_severen.py:200-226 | an address and a list of transits written out that way, the list joined with ", ", parse back to the same address and list |
| CardParser.FieldAt | arhive/sync_trello_severen.py:232-238 | a `Name[:\s]+([^\n]+)` match captures a non-empty rest of a line that starts after the name |
| CardParser.FieldCapture | arhive/sync_trello_severen.py:241-244 | a field is captured exactly when its pattern matches somewhere, and the capture holds no newline |
| CardParser.FieldValue | arhive/sync_trello_severen.py:244-245 | a field value is the capture stripped; it exists exactly when the capture does |
| CardParser.ParseDescriptionFields | arhive/sync_trello_severen.py:228-246 | the dict holds exactly the five named fields whose pattern matches, each with its stripped value |
| CardParser.ExtractClient | arhive/sync_trello_severen.py:248-262 | the result is the first label, in label order, that names a known client ignoring case, or "" exactly when no label does |
| CardParser.TypeFor | arhive/sync_trello_severen.py:305-310 | the result is the first work type, in table order, with a keyword in the text, and none exactly when no type has one |
| CardParser.TypeFromLabels | arhive/sync_trello_severen.py:296-303 | the result is the type of the first label, in label order, that holds any keyword |
| CardParser.DetermineWorkType | arhive/sync_trello_severen.py:264-312 | the result is always a type of the table; a label match outranks everything; without one, the first type whose keywords occur in the lowered title and description wins; with neither, the default type |
| CardParser.CardLabels | arhive/sync_trello_severen.py:145-147 | the card's labels are names from the label map, at most one per label id |
| CardParser.CardStatus | arhive/sync_trello_severen.py:155-162 | an open card's status is its list name; a closed card's is "[АРХИВ] " + name, or "[АРХИВ]" alone when the name is empty |
| CardParser.Executor | arhive/sync_trello_severen.py:168 | the executor is Подрядчик, else Исполнитель, else "" |
| CardParser.ParseCard | arhive/sync_trello_severen.py:123-182 | the card dict holds the work number, the address split, the start date and executor from the description fields, the work type from labels, title and description, the client from the labels and the status from the list and the archived flag, with description, raw name and archived flag copied |
| CardSync.AddressWithTask | arhive/sync_trello_severen.py:416-419 | the column C text holds the work number when there is one, and is the bare address otherwise |
| CardSync.CardCells | arhive/sync_trello_severen.py:408-414 | the cells a card write produces never include columns A, B, E or M, which are filled by hand |
| CardSync.SyncedColumnsWritten | arhive/sync_trello_severen.py:416-463 | columns C, F, H, K and N are written on every unlocked write |
| CardSync.StartAndPriceWritten | arhive/sync_trello_severen.py:422-438 | column D is written exactly when the card has a start date, and the price formula of column G exactly on a new row |
| CardSync.OptionalColumnsWritten | arhive/sync_trello_severen.py:443-457 | columns I, J and L are written exactly when the client, executor and transit list are non-empty |
| CardSync.WrittenAddressHoldsNumber | arhive/sync_trello_severen.py:361-364 | a written column C contains the card's work number, so a later search for that number finds the row |
| CardSync.WriteKeepsLocked | arhive/sync_trello_severen.py:400-404 | writing into a row whose column B is empty keeps every row locked at the start with all its cells |
| CardSync.WriteStepKeepsLocked | arhive/sync_trello_severen.py:400-404 | a card write keeps every row that was locked when the run started |
| CardSync.UpdateCellsWithin | arhive/sync_trello_severen.py:436-441 | an update at a later time writes, apart from column H, only cells the first write of the row wrote, with the same values (the price formula is not written again); column H takes the new time |
| CardSync.WriteStepIdempotent | arhive/sync_trello_severen.py:347-463 | writing a card again at a later `datetime.now()` finds the row it was written to, counts as an update and adds no row; an unlocked row changes only in column H, which takes the second time, and a locked row does not change |
| CardSync.SyncStepIdempotent | arhive/sync_trello_severen.py:530-551 | syncing a card again at a later time is a skip or an update and adds no row; after a skip nothing changed, otherwise the second pass writes to the card's row and changes only its column H, to the second time, unless the row is locked |
| CardSync.ExcelManager.constructor | arhive/sync_trello_severen.py:318-338 | the manager works on the given works sheet |
| CardSync.ExcelManager.FindRowByWorkNumber | arhive/sync_trello_severen.py:347-366 | the result is the lowest row from 2 to `max_row` whose column C contains the number; none for an empty number or when no row does |
| CardSync.ExcelManager.FindOrCreateRow | arhive/sync_trello_severen.py:368-389 | an existing row is the first row holding the number; otherwise the row after the last one, flagged as new |
| CardSync.ExcelManager.WriteCardData | arhive/sync_trello_severen.py:391-463 | a row whose closing date is set is left exactly as it was; otherwise exactly the card's cells are written into that row and no other cell changes |
| CardSync.ExcelManager.WriteCard | arhive/sync_trello_severen.py:541-545 | the sheet and outcome are those of one card write into the row found or appended; a created row raises `max_row` by one |
| CardSync.ExcelManager.SyncCard | arhive/sync_trello_severen.py:530-551 | the sheet and outcome are those of one sync step on the card (skipped exactly when it has no work number); a created row raises `max_row` by one; locked rows keep their cells |
| CardSync.ExcelManager.SyncNext | arhive/sync_trello_severen.py:530-551 | one turn of the card loop, with the clock read for that card, leaves the sheet the loop's sheet after one more card, and keeps locked rows |
| CardSync.ExcelManager.SyncCards | arhive/sync_trello_severen.py:523-555 | skipped, created, updated and errors add up to the number of cards, processed is created plus updated, skipped counts the cards without a number, `max_row` grows by the created rows, rows locked at the start keep every cell, and the sheet is the one the cards' sync steps give in order |
| SeverenParser.LabelledNumberAt | files/sync_trello_severen.py:150 | a match of `Номер работы:\s*(\d+)` captures a whole number that starts after the match position |
| SeverenParser.TaskNumberAt | files/sync_trello_severen.py:151 | the same for `Задание\s*№?\s*(\d+)` |
| SeverenParser.TaskColonAt | files/sync_trello_severen.py:152 | the same for `Задание:\s*(\d+)` |
| SeverenParser.TitlePatternAt | files/sync_trello_severen.py:149-154 | each of the four title patterns, in their order, captures a whole number |
| SeverenParser.TitleNumberFrom | files/sync_trello_severen.py:155-159 | the capture is a whole number taken from the first remaining pattern that occurs in the title; none when no remaining pattern occurs |
| SeverenParser.TitleNumber | files/sync_trello_severen.py:147-159 | a non-empty work number is a run of digits that is a whole number of the title |
| SeverenParser.TitleNumberEmptyIff | files/sync_trello_severen.py:147-159 | the work number is "" exactly when none of the four patterns occurs |
| SeverenParser.TitleNumberFirst | files/sync_trello_severen.py:147-159 | a found number is the capture of the first of the four patterns, in order, that occurs in the title |
| SeverenParser.LazyLine | files/sync_trello_severen.py:164 | the lazy `.+?` stops at the first full stop or line end and never crosses a line break |
| SeverenParser.TitleTransitAt | files/sync_trello_severen.py:163-167 | the transit capture is non-empty, lies after the marker, holds no line break and no inner full stop |
| SeverenParser.TransitCapture | files/sync_trello_severen.py:168-169 | a capture exists exactly when the transit pattern matches somewhere |
| SeverenParser.TitleTransits | files/sync_trello_severen.py:161-171 | every transit address is non-empty, stripped and comma-free |
| SeverenParser.TitleTransitsWritten | files/sync_trello_severen.py:161-171 | a title written as an address, ". ", the transit label and a list gives back the comma split of that list |
| SeverenParser.TitleTransitsRoundTrip | files/sync_trello_severen.py:161-171 | transit items joined with ", " after the label in a title are read back as the same items |
| SeverenParser.MainAddress | files/sync_trello_severen.py:173-180 | the main address is a piece of the title and ends in none of `.,;: `; with no separator it is the title trimmed at the end, otherwise the stripped text before the first separator in the list that occurs, trimmed |
| SeverenParser.MainAddressBeforeSeparator | files/sync_trello_severen.py:174-177 | the main address never holds the separator the title was cut at |
| SeverenParser.ParseCardTitle | files/sync_trello_severen.py:138-188 | the address is a piece of the title that does not end in ".,;: ", the work number is all digits when found, and the transits are stripped non-empty items |
| SeverenParser.FieldPatternAt | files/sync_trello_severen.py:201-210 | a field pattern match captures a non-empty span of the description |
| SeverenParser.FirstLine | files/sync_trello_severen.py:215-217 | a field value is stripped and holds no line break |
| SeverenParser.FieldValue | files/sync_trello_severen.py:212-218 | the value of a matched field is stripped and a single line |
| SeverenParser.PricingTotal | files/sync_trello_severen.py:221-233 | the ИТОГО of the "Расценки" block is a non-empty run of digits |
| SeverenParser.FoundFieldsIff | files/sync_trello_severen.py:212-218 | a pattern field is found exactly when its pattern matches, with its first-line value |
| SeverenParser.ParseDescription | files/sync_trello_severen.py:190-241 | an empty description gives no fields; otherwise every matched field with its value, the "Расценки" text, its ИТОГО replacing the generic one, and the start date normalised |
| SeverenParser.SubIso | files/sync_trello_severen.py:255 | rewriting the ISO dates keeps the length of the text |
| SeverenParser.NormalizeDate | files/sync_trello_severen.py:243-257 | normalising keeps the length, and a text with no ISO date is returned as it is |
| SeverenParser.SubIsoDotted | files/sync_trello_severen.py:251-255 | rewriting leaves a `dd.mm.yyyy` date wherever there was an ISO date to rewrite |
| SeverenParser.NormalizeDateIdempotent | files/sync_trello_severen.py:243-257 | normalising twice gives the same text as normalising once |
| SeverenParser.NormalizeIsoDate | files/sync_trello_severen.py:251 | a `yyyy-mm-dd` date becomes the same date written `dd.mm.yyyy` |
| SeverenParser.NormalizeDottedDate | files/sync_trello_severen.py:248-249 | a `dd.mm.yyyy` date is returned unchanged |
| SeverenParser.ChecklistTotalAt | files/sync_trello_severen.py:265 | a match of `ИТОГО:\s*(?:Сумма\s*)?(\d+)` captures a non-empty run of digits |
| SeverenParser.ChecklistTotal | files/sync_trello_severen.py:259-268 | the total is that of the first check item, in checklist order, that states one; none exactly when no item does |
| SeverenParser.LabelPoint | files/sync_trello_severen.py:284-286 | the пункт chosen for a label is the first, in table order, whose key the label holds |
| SeverenParser.DeterminePrice | files/sync_trello_severen.py:270-307 | the first label holding a table key decides; failing that the first пункт with a keyword in description and title; failing both, Пункт 1 at 1850 |
| SeverenParser.PricingTotalAt | files/sync_trello_severen.py:231-233 | `ИТОГО:\s*(\d+)` in the pricing block captures a whole number |
| SeverenSync.DataSheet | files/sync_trello_severen.py:326-336 | the data sheet is the first sheet whose name holds a data-sheet name ignoring case, or the active sheet when none does |
| SeverenSync.PointIndex | files/sync_trello_severen.py:46-82 | the position of a пункт is the first holding that key, or the end |
| SeverenSync.Upsert | files/sync_trello_severen.py:361-366 | a dict assignment keeps every key in place, adds one key only when it is new, and keeps keys unique |
| SeverenSync.UpsertKeywordless | files/sync_trello_severen.py:361-366 | adding an item without keywords to a list without keywords gives a list without keywords |
| SeverenSync.UpsertLookup | files/sync_trello_severen.py:361-366 | after the assignment the key holds the new value and every other key what it held |
| SeverenSync.MergeAll | files/sync_trello_severen.py:496-498 | `update` keeps the existing keys in place and keeps keys unique |
| SeverenSync.MergeLookup | files/sync_trello_severen.py:496-498 | after `update` a key holds the last value the new items give it, else its old value |
| SeverenSync.MergeSelf | files/sync_trello_severen.py:494-498 | updating the built-in list with its own entries leaves it unchanged |
| SeverenSync.DefaultPricesUnique | files/sync_trello_severen.py:46-82 | the built-in list names each пункт once |
| SeverenSync.ReadRow | files/sync_trello_severen.py:355-366 | a пункт read from the sheet has no keywords |
| SeverenSync.SheetPrices | files/sync_trello_severen.py:353-368 | read from rows with an empty keyword list into a list with unique points and no keywords, the list read from the sheet again has unique points and no keywords |
| SeverenSync.PricesOf | files/sync_trello_severen.py:347-372 | the list read from an existing sheet is the built-in default when a sum does not convert, and otherwise the sheet's items, with unique points and no keywords (an empty sheet gives the empty list, and `PriceTable` then uses the built-in table) |
| SeverenSync.SheetPointsHaveNoKeywords | files/sync_trello_severen.py:365 | a пункт the sheet defines takes the sheet's value after the merge and matches no keyword |
| SeverenSync.PriceTableDefault | files/sync_trello_severen.py:349-351 | without a price sheet the price list is the built-in one |
| SeverenSync.StatusFor | files/sync_trello_severen.py:552-553 | a known list name maps to one of the five statuses, any other name to itself |
| SeverenSync.LastMatch | files/sync_trello_severen.py:556-570 | the district or client is the last label that mentions a known name |
| SeverenSync.LastWith | files/sync_trello_severen.py:556-570 | the last item with a point is in the list and has that point; none exactly when no item has it |
| SeverenSync.CardCost | files/sync_trello_severen.py:544-549 | the description ИТОГО, converted, wins; else a non-zero checklist total; else the chosen price |
| SeverenSync.PricingTotalConverts | files/sync_trello_severen.py:231-233 | a "Расценки" ИТОГО always converts, to its decimal value |
| SeverenSync.AddressFull | files/sync_trello_severen.py:527-532 | the full address holds the work number and is at least ". Задание " longer |
| SeverenSync.RowOf | files/sync_trello_severen.py:573-586 | a row exists exactly when the card has a number and a cost, with that cost and пункт |
| SeverenSync.CardRowRejects | files/sync_trello_severen.py:520-545 | a card gives no row exactly when it has no number or its ИТОГО does not convert |
| SeverenSync.PricedCardAccepted | files/sync_trello_severen.py:544-545 | a numbered card with a "Расценки" ИТОГО is written at that cost |
| SeverenSync.PricedCost | files/sync_trello_severen.py:544-545 | a "Расценки" ИТОГО is the cost whatever the checklist and the price |
| SeverenSync.RowCells | files/sync_trello_severen.py:388-452 | a card write touches only the sync columns |
| SeverenSync.RowCellsColumns | files/sync_trello_severen.py:391-452 | the row formula is always written, the cost only when non-zero, the client when there is one, the details when the description is non-empty |
| SeverenSync.ClientFallback | files/sync_trello_severen.py:436-438 | without a label client the description's customer is written |
| SeverenSync.WrittenAddressHoldsNumber | files/sync_trello_severen.py:376-379 | a written address cell holds the card's number, so a later sync finds the row |
| SeverenSync.AddressCell | files/sync_trello_severen.py:409-411 | a non-empty full address is written into column 6 |
| SeverenSync.RowOfAddress | files/sync_trello_severen.py:409-411 | the address cell of a prepared row holds the title's number |
| SeverenSync.RowWriteIdempotent | files/sync_trello_severen.py:374-452 | after a row is written at the row its number leads to, looking the number up again finds that row, and writing it again changes nothing |
| SeverenSync.SyncStepIdempotent | files/sync_trello_severen.py:515-600 | syncing a card twice is syncing it once: the second pass finds the same row and adds none |
| SeverenSync.SameOutsideTrans | files/sync_trello_severen.py:514-600 | keeping the cells outside the sync columns composes over successive cards |
| SeverenSync.WriteKeepsOutside | files/sync_trello_severen.py:388-452 | a write confined to the sync columns keeps every other cell |
| SeverenSync.ExcelManager.constructor | files/sync_trello_severen.py:314-346 | the manager works on the data sheet and the price sheet, when there is one |
| SeverenSync.ExcelManager.ReadPrices | files/sync_trello_severen.py:347-372 | without a price sheet the built-in list; otherwise the пункты the sheet's rows define |
| SeverenSync.ExcelManager.FindOrCreateRow | files/sync_trello_severen.py:374-386 | the lowest row whose address holds the number, else the row after the last |
| SeverenSync.ExcelManager.WriteCardData | files/sync_trello_severen.py:388-452 | exactly the card's cells are written into that row and no other cell changes |
| SeverenSync.ExcelManager.SyncCard | files/sync_trello_severen.py:515-600 | a rejected card changes nothing; an accepted one writes its cells into the row found for its number or a new row after the last; the sheet is one sync step on the card |
| SeverenSync.ExcelManager.SyncNext | files/sync_trello_severen.py:515-600 | one turn of the card loop: the counts grow by one, errors stay the rejected cards so far, and the sheet is the loop's after one more card |
| SeverenSync.ExcelManager.PrepareRow | files/sync_trello_severen.py:519-582 | the row data prepared for a card is the one the specification of a card row gives |
| SeverenSync.ExcelManager.DescriptionLookups | files/sync_trello_severen.py:534-582 | the total, start, contractor and customer read from the description are the description's fields |
| SeverenSync.ExcelManager.SyncCards | files/sync_trello_severen.py:511-600 | processed plus errors is the number of cards, errors are exactly the rejected cards, only the sync columns change, each processed card adds at most one row, and the sheet is the one the cards' sync steps give in order, each card at its own clock reading |
| SeverenSync.ExcelManager.Sync | files/sync_trello_severen.py:494-600 | the price list is the built-in one (no price sheet) or the built-in one updated by the sheet's, then every card is synced against it, errors being the rejected cards |
| TrelloV2.DistrictAt | trello_to_excel_v2.py:58 | a match of `^\d+\n(.+?)\n` captures a non-empty line after a line of digits, ended by a newline |
| TrelloV2.DistrictCapture | trello_to_excel_v2.py:58-59 | a capture exists exactly when the district pattern matches; it is non-empty and a single line |
| TrelloV2.District | trello_to_excel_v2.py:58-60 | the district is a stripped single line, "" when the pattern does not match |
| TrelloV2.StartCapture | trello_to_excel_v2.py:63-64 | a start-date capture has the `dd.mm.yyyy` shape, and exists exactly when the pattern matches |
| TrelloV2.StartValue | trello_to_excel_v2.py:65-70 | a valid date is rewritten as the ISO text of the same date; an invalid one is kept as it is |
| TrelloV2.StartDate | trello_to_excel_v2.py:63-70 | the start date is "" without a match, and the rewritten capture otherwise |
| TrelloV2.NameFrom | trello_to_excel_v2.py:73 | the lazy name run stops at the first place where `\]?(?:\(|,|\n)` can follow, and holds no `]` or newline |
| TrelloV2.NameAt | trello_to_excel_v2.py:73 | a name match captures a non-empty run of characters other than `]` and newline |
| TrelloV2.NameCapture | trello_to_excel_v2.py:73-75 | a name capture exists exactly when the pattern matches, and is non-empty, without `]` or newline |
| TrelloV2.NameValue | trello_to_excel_v2.py:73-75 | a name value is stripped and free of `]` and newline, "" without a match |
| TrelloV2.Client | trello_to_excel_v2.py:72-81 | the client is the "Клиент" name, and the "Заказчик:" name exactly when the first is empty |
| TrelloV2.ContractorAt | trello_to_excel_v2.py:84 | the lazy contractor run stops at the first newline or the end |
| TrelloV2.ContractorCapture | trello_to_excel_v2.py:84-86 | a contractor capture exists exactly when the pattern matches, and is stripped and a single line |
| TrelloV2.Contractor | trello_to_excel_v2.py:83-88 | the contractor is set exactly when the capture is non-empty and not the "?????" placeholder, and is then the capture |
| TrelloV2.FullAddressAt | trello_to_excel_v2.py:91 | a match starts with "гор" and holds the city name followed by at least one more character |
| TrelloV2.FullAddress | trello_to_excel_v2.py:91-93 | a full address exists exactly when the pattern matches, and starts with "гор" |
| TrelloV2.AddressField | trello_to_excel_v2.py:97-99 | an address field exists exactly when its pattern matches |
| TrelloV2.FallbackAddress | trello_to_excel_v2.py:99-103 | the built address is "гор. Санкт-Петербург, ", the district and ", " when there is one, then the field |
| TrelloV2.Address | trello_to_excel_v2.py:90-103 | a non-empty address always starts with "гор" |
| TrelloV2.AddressEmpty | trello_to_excel_v2.py:90-103 | the address is empty exactly when neither address pattern matches |
| TrelloV2.CityPrefixGor | trello_to_excel_v2.py:101-103 | every built address starts with "гор" |
| TrelloV2.ParseCardDescription | trello_to_excel_v2.py:43-105 | the parsed card keeps the whole description and an empty note |
| TrelloV2.DetermineStatus | trello_to_excel_v2.py:140-153 | the status is one of the four; "Выполнен" exactly when the lower-cased name says done, then paused, then refused, in that order |
| TrelloV2.StatusIgnoresCase | trello_to_excel_v2.py:144 | a list name and its lower-cased form get the same status |
| TrelloV2.CardRow | trello_to_excel_v2.py:198-204 | a card writes exactly the seven columns, with its address, status, note and description |
| TrelloV2.NewRows | trello_to_excel_v2.py:182-208 | there are never more new rows than cards |
| TrelloV2.NewRowsCount | trello_to_excel_v2.py:182-191 | exactly the cards with a description and an address give a row |
| TrelloV2.NewRowsSnoc | trello_to_excel_v2.py:182-208 | the rows of one more card are those before it and its own |
| TrelloV2.SyncToExcel | trello_to_excel_v2.py:178-208 | the rows are appended after the last row in card order, and `max_row` grows by the number added |
| TrelloV2.AppendCard | trello_to_excel_v2.py:183-208 | an accepted card's row goes to the row after the last; a rejected card changes nothing |
| TrelloV2.WriteRow | trello_to_excel_v2.py:198-204 | the seven cells of the card are written on the row after the last and nothing else changes |
| TrelloV2.Bracketed | trello_to_excel_v2.py:73-80 | the client capture is a non-empty run of characters other than ']' and newline, after the label |
| TrelloV2.CityLine | trello_to_excel_v2.py:91 | a match of the full-address pattern has the city name after whitespace and runs on past it to the end of the line |
| ActGenerator.RussianSound | windows/generate_act.py:36-45 | the four word lists have the lengths `sum_to_words` indexes and every entry it uses is non-empty and starts and ends with a lower-case Cyrillic letter |
| ActGenerator.ChunkEmptyIff | windows/generate_act.py:47-54 | `chunk` gives the empty text exactly for 0 |
| ActGenerator.LowTokens | windows/generate_act.py:50-53 | the words said for a number below a hundred count up to that number, and there are none exactly for 0 |
| ActGenerator.ChunkTokens | windows/generate_act.py:47-54 | the words said for a number below a thousand count up to that number, and there are none exactly for 0 |
| ActGenerator.ChunkSpells | windows/generate_act.py:47-54 | `chunk(n)` is those words joined by single spaces |
| ActGenerator.ThousandForm | windows/generate_act.py:56-63 | the thousands noun is one of тысяча, тысячи, тысяч |
| ActGenerator.Group | windows/generate_act.py:56-63 | the thousands group of a count from 1 to 999 ends in the thousands noun of that count's form |
| ActGenerator.GroupSpells | windows/generate_act.py:56-63 | `group(t, thousands)` is the words of t followed by the noun, joined by single spaces, or тысяча alone for one |
| ActGenerator.RubText | windows/generate_act.py:65-75 | the words exist exactly below a million, where `chunk` stops raising |
| ActGenerator.SumToWords | windows/generate_act.py:31-77 | the text exists exactly below a million and is the figure, the words in brackets, "рублей, 00 копеек" |
| ActGenerator.AmountTokens | windows/generate_act.py:68-74 | the words of a positive amount are valid number words |
| ActGenerator.PartsSpell | windows/generate_act.py:68-75 | the parts joined by `sum_to_words` are exactly those words, in order |
| ActGenerator.PartsStripped | windows/generate_act.py:75 | `strip` removes nothing from the joined words |
| ActGenerator.RubSpells | windows/generate_act.py:65-75 | a positive amount below a million is said as its words joined by spaces, capitalised |
| ActGenerator.NegativeRubText | windows/generate_act.py:68-75 | a negative amount collects no part and is said as "" |
| ActGenerator.AmountRead | windows/generate_act.py:65-75 | the words said for a positive amount below a million read back as that amount |
| ActGenerator.FourteenThousandWords | windows/generate_act.py:32 | 14100 is said "четырнадцать тысяч сто", as the docstring shows |
| ActGenerator.GroupTwentyOne | windows/generate_act.py:56-63 | the noun follows the whole thousands count, so 21 thousand is "двадцать один тысяч" |
| ActGenerator.FloatToIntNatural | windows/generate_act.py:131 | without a '-', what `int(float(s))` reads is never negative |
| ActGenerator.FloatToIntString | windows/generate_act.py:130-131 | `int(float(s))` of the decimal form of any integer, negative ones included, gives that integer back |
| ActGenerator.ActPiece | windows/generate_act.py:127-128 | the piece after the last '-' holds no '-' |
| ActGenerator.PieceText | windows/generate_act.py:130-134 | the piece's text, as an integer or without leading zeros, holds no '-' |
| ActGenerator.NormalizeActNumber | windows/generate_act.py:121-134 | a normalised act number never holds a '-' |
| ActGenerator.DigitsFloat | windows/generate_act.py:131 | a run of digits is read by `int(float(...))` as its decimal value |
| ActGenerator.NormalizeRead | windows/generate_act.py:121-132 | a number whose last piece `int(float(...))` reads normalises to the decimal form of that integer |
| ActGenerator.DigitsPiece | windows/generate_act.py:123-128 | a run of digits is kept by `strip`, is not "nan" and has no '-' to split at |
| ActGenerator.NormalizeNumber | windows/generate_act.py:121-134 | a number normalises to its decimal form, which normalises to itself, so comparing normalised numbers compares integers |
| ActGenerator.ActPieceAfterDash | windows/generate_act.py:127-128 | only the part after the last '-' counts: "01-1" gives "1" |
| ActGenerator.FindSheet | windows/generate_act.py:91-97 | the first sheet whose name holds a keyword ignoring case, else the first sheet |
| ActGenerator.SafeGet | windows/generate_act.py:100-108 | a row or column index that does not resolve, as Python resolves negative ones, gives the default; so does a NaN cell or one whose stripped text is empty; any other cell gives its stripped text |
| ActGenerator.ToDateStamp | windows/generate_act.py:80-89 | a timestamp is written as dd.mm.yyyy, two digits, a dot, two digits, a dot, four digits, and that text reads back as the day of the timestamp |
| ActGenerator.ActNumber | windows/generate_act.py:167-174 | an act number exists exactly when some row has one |
| ActGenerator.SelectedRows | windows/generate_act.py:179-189 | the selected rows are exactly the rows the mask keeps: status holds "выполнен" in any case, the act number matches and both dates are present |
| ActGenerator.SelectedRowsAppend | windows/generate_act.py:179-189 | the mask keeps order: the rows kept from two consecutive stretches are those of the first then those of the second, and one row is kept, once, exactly when it is selected |
| ActGenerator.Insert | windows/generate_act.py:212 | `d[k] = v` keeps the dict well formed and sets exactly the price of k |
| ActGenerator.RatesOf | windows/generate_act.py:208-214 | the dict built from the rates rows is well formed |
| ActGenerator.RatesStep | windows/generate_act.py:209-214 | one more row sets at most the price of its own code |
| ActGenerator.RatesOfLast | windows/generate_act.py:208-214 | a code has a price exactly when some row gives it, and the price is that of the last such row |
| ActGenerator.BuildRates | windows/generate_act.py:208-214 | the loop builds exactly that dict |
| ActGenerator.GetCost | windows/generate_act.py:218-228 | a present numeric cost wins; else the price of the first code, in dict order, cited as "code." in the work name; else 0 |
| ActGenerator.Costs | windows/generate_act.py:230 | the cost column holds `get_cost` of each selected row |
| ActGenerator.Plan | windows/generate_act.py:162-242 | it stops exactly without an act number, exactly without a selected row, exactly when the selected rows' start dates, end dates or `Дата` values mix kinds `.min()`/`.max()` cannot order, or with a total of a million or more; otherwise the act holds the selected rows, whose dates can be ordered, their costs, the total and its words |
| ActGenerator.MixedPeriodStops | windows/generate_act.py:199-200 | two selected rows whose start dates, or whose end dates, differ in kind (a timestamp and a text, say) stop the script before the template is opened |
| ActGenerator.MixedKindsUnorderable | windows/generate_act.py:199-200 | start dates, or end dates, of two kinds (a timestamp and a text, say) among the rows cannot be ordered, so `.min()`/`.max()` raises on them |
| ActGenerator.Decide | windows/generate_act.py:162-242 | the steps before the template is opened end in exactly the plan |
| ActGenerator.ActRow | windows/generate_act.py:264-284 | a row writes exactly A to D and G to K: the address, the dates and the work name on both sides, the cost in K |
| ActGenerator.TableRows | windows/generate_act.py:264-284 | there is one table row per selected work |
| ActGenerator.TableRowsSnoc | windows/generate_act.py:264-265 | the rows of one more work are those before it and its own |
| ActGenerator.TableEndClose | windows/generate_act.py:289-299 | after the sum row and the words row, `max_row` reaches the words row |
| ActGenerator.WriteActRow | windows/generate_act.py:274-284 | the nine cells of the row are written and nothing else changes |
| ActGenerator.AppendActRow | windows/generate_act.py:264-284 | the i-th work's row goes to row 13 + i |
| ActGenerator.FillRows | windows/generate_act.py:261-284 | row 13 + i holds the i-th selected work, and nothing else changes |
| ActGenerator.FillTable | windows/generate_act.py:257-302 | the table sheet gets the rows, the sum formula under them and the total in words under that |
| ActGenerator.WriteHeaders | windows/generate_act.py:250-255 | every sheet is left with C5 holding "№ " and the act number and everything else as it was (Stamped), and stays well-formed |
| ActGenerator.FillTemplate | windows/generate_act.py:246-304 | every sheet gets the header; the table sheet, when the template has one, also gets the table |
| ActGenerator.GenerateAct | windows/generate_act.py:137-304 | the outcome is the plan; nothing is written when it stops early; otherwise every sheet is stamped and the table sheet filled |
| DocumentGenerator.SimplifiedSound | document_generator.py:316-334 | the word lists of `number_to_words` have the lengths it indexes, with an empty entry for digit 0 and a non-empty entry for every other digit and every noun form |
| DocumentGenerator.NounForm | document_generator.py:324-329 | the thousands noun is one of тысяча, тысячи, тысяч |
| DocumentGenerator.NumberPieces | document_generator.py:310-338 | below a hundred thousand every list index the pieces use is in range |
| DocumentGenerator.Say | document_generator.py:308-340 | the words exist exactly when `number // 1000` is below 100, where `tens[thousands // 10]` stops raising |
| DocumentGenerator.NumberToWords | document_generator.py:308-340 | the words exist exactly below 100000 |
| DocumentGenerator.NumberPiecesValue | document_generator.py:310-338 | the pieces of a number from 0 to 99999 read back as that number: nothing is lost or doubled |
| DocumentGenerator.BelowThousand | document_generator.py:331-338 | below a thousand there is no thousands part, and the rest is said digit by digit |
| DocumentGenerator.ElevenDigitByDigit | document_generator.py:331-338 | eleven is said "десять один", teens having no words of their own |
| DocumentGenerator.NounFormLastTwoDigits | document_generator.py:324-329 | the noun depends on the last two digits only, and every teen takes тысяч |
| DocumentGenerator.SilentIff | document_generator.py:340 | the filtered words are empty exactly when every piece is said as nothing |
| DocumentGenerator.SayEmptyIff | document_generator.py:308-340 | the words are "" exactly for 0 and the negative multiples of a thousand |
| DocumentGenerator.PiecesSilentIff | document_generator.py:315-338 | every piece is silent exactly when there is neither a thousands nor a hundreds part |
| DocumentGenerator.NumberToWordsEmpty | document_generator.py:308-340 | `number_to_words` gives "" exactly for 0 and the negative multiples of a thousand |
| DocumentGenerator.LoadPrices | document_generator.py:31-36 | a price table built over the rows keeps every code it started with |
| DocumentGenerator.LoadPricesFails | document_generator.py:31-36 | loading fails exactly when some listed row has a code or price that does not convert |
| DocumentGenerator.LoadPricesHas | document_generator.py:31-36 | a code is in the loaded table exactly when it was already there or some listed row gives it |
| DocumentGenerator.LoadPricesLast | document_generator.py:31-36 | the entry of a code is that of the last listed row giving it |
| DocumentGenerator.LoadPricesStops | document_generator.py:31-36 | once a row fails to convert, the whole load fails |
| DocumentGenerator.Blank | document_generator.py:44-47 | a missing value becomes "" and a present one is kept |
| DocumentGenerator.Tasks | document_generator.py:40-49 | every task has a number other than 1 and no missing field |
| DocumentGenerator.TasksAreKeptRows | document_generator.py:40-49 | the tasks are those of the kept rows, in order, and nothing else |
| DocumentGenerator.ReportTotal | document_generator.py:194-200 | with no negative price in the table the report total is never negative |
| DocumentGenerator.ReportTotalListedOnly | document_generator.py:194-200 | the report total counts only the services whose code is in the price table |
| DocumentGenerator.ReportTotalAppend | document_generator.py:184-200 | the report total of two lists of services is the sum of their totals |
| DocumentGenerator.ActTotal | document_generator.py:269 | when the act total is computed it equals the report total of the same services |
| DocumentGenerator.ActTotalFails | document_generator.py:269 | the act total fails exactly when a service has no 'type' |
| DocumentGenerator.ActTotalIsReportTotal | document_generator.py:194-200 | when every service has a 'type', the act and the report come to the same total |
| DocumentGenerator.ActAmount | document_generator.py:269-284 | the amount exists exactly for a non-empty service list with every 'type' present and a total below 100000, and is that total with its words |
| DocumentGenerator.Generator.constructor | document_generator.py:20-24 | a new generator has no tasks and no prices |
| DocumentGenerator.Generator.LoadData | document_generator.py:27-49 | loading succeeds exactly when every listed price row converts; then the prices are the loaded table and the tasks those of the kept rows; on failure no task is added |
| DocumentGenerator.Generator.ReportSum | document_generator.py:184-200 | the loop's total is the report total |
| MonthlyReports.ClockField | report_generator_v2.py:122 | a clock field read by `strptime` is at most its bound |
| MonthlyReports.ParseStamp | report_generator_v2.py:122 | a timestamp `strptime` accepts is a valid date and time |
| MonthlyReports.ParseStampSpaced | report_generator_v2.py:122 | a date, any run of whitespace and a two-digit clock are read back as that moment |
| MonthlyReports.ParseStampRoundTrip | report_generator_v2.py:122 | what `str(datetime)` writes is read back as the same moment |
| Dates.ParseIsoDateSpacedDay | report_generator_v2.py:125 | a date whose day is written as a space and one digit is read as that date |
| MonthlyReports.WorkDate | report_generator_v2.py:114-127 | a date read from text by either format is a valid date and time |
| MonthlyReports.WorkDateStamp | report_generator_v2.py:119-122 | a text cell holding a date, a run of whitespace and a clock is read as that moment |
| MonthlyReports.WorkDateDay | report_generator_v2.py:119-127 | a text cell holding a bare `yyyy-mm-dd` is read as midnight of that day |
| MonthlyReports.InMonth | report_generator_v2.py:90-131 | a valid timestamp lies between the first and the last moment of the month exactly when its year and month are the report's |
| MonthlyReports.ExtractRows | report_generator_v2.py:97-151 | every work comes from a kept row between 2 and `max_row`, carries its row number, and the works keep sheet order |
| MonthlyReports.Extract | report_generator_v2.py:97-151 | at most one work per data row, rows 2 to `last` |
| MonthlyReports.ExtractComplete | report_generator_v2.py:97-151 | every kept row gives its work in the result |
| MonthlyReports.ExtractInMonth | report_generator_v2.py:90-131 | a kept work with a real date lies in the requested month and year, on any day of it |
| MonthlyReports.ExtractData | report_generator_v2.py:76-154 | the loop returns exactly the works of the kept rows |
| MonthlyReports.StartFrom | report_generator_v2.py:184-189 | the table starts right after the first row from 1 to 19 whose column A holds '№'; none exactly when no such row |
| MonthlyReports.FindTableStart | report_generator_v2.py:183-193 | the search loop finds exactly that start |
| MonthlyReports.FirstRows | report_generator_v2.py:204-209 | one ПРИЛОЖЕНИЕ 1 row per work, the i-th numbered i + 1 |
| MonthlyReports.ThirdRows | report_generator_v2.py:272-287 | one ПРИЛОЖЕНИЕ 3 row per work, the i-th numbered i + 1 |
| MonthlyReports.FirstNumbered | report_generator_v2.py:195-218 | ПРИЛОЖЕНИЕ 1 is numbered 1 to n from the table start, everything below the works is empty, and rows above the start are untouched |
| MonthlyReports.FirstNumber | report_generator_v2.py:205 | column A of the row of work k holds k + 1 |
| MonthlyReports.ThirdTotal | report_generator_v2.py:270-303 | column D holds the price of each work, and the ИТОГО row right under them holds their sum |
| MonthlyReports.TotalBelow | report_generator_v2.py:301-303 | the ИТОГО row holds the label in A and the total in D |
| MonthlyReports.ThirdPrice | report_generator_v2.py:278-287 | column D of the row of work i holds its parsed price, or 0 |
| MonthlyReports.UnparsedPriceAddsNothing | report_generator_v2.py:279-287 | a price that is missing or does not parse adds 0 to the total |
| MonthlyReports.WriteFirstRow | report_generator_v2.py:205-209 | the five cells of the row are written and nothing else changes |
| MonthlyReports.WriteThirdRow | report_generator_v2.py:273-287 | the four cells of the row are written and nothing else changes |
| MonthlyReports.FirstRowsStep | report_generator_v2.py:204-218 | writing work i at row start + i extends the ПРИЛОЖЕНИЕ 1 rows by one |
| MonthlyReports.ThirdRowsStep | report_generator_v2.py:272-298 | writing work i at row start + i extends the ПРИЛОЖЕНИЕ 3 rows by one |
| MonthlyReports.AppendFirst | report_generator_v2.py:204-218 | one pass puts work i at row start + i, numbered i + 1 |
| MonthlyReports.FillFirst | report_generator_v2.py:202-218 | row start + i holds work i, numbered i + 1, and nothing else changes |
| MonthlyReports.AppendThird | report_generator_v2.py:272-298 | one pass puts work i at row start + i, numbered i + 1 |
| MonthlyReports.AddPrice | report_generator_v2.py:278-287 | the total grows by the price when it is set and parses, else by 0 |
| MonthlyReports.FillThird | report_generator_v2.py:269-298 | the rows are written from the start and the total is the sum of the parsed prices |
| MonthlyReports.WriteTotal | report_generator_v2.py:300-303 | the ИТОГО row is written and nothing else changes |
| MonthlyReports.RefillFirst | report_generator_v2.py:183-221 | it succeeds exactly when the table start is found, and the sheet then becomes the refilled one; otherwise it is unchanged |
| MonthlyReports.FillThirdTable | report_generator_v2.py:269-303 | the works from the start, then the ИТОГО row under them with their sum |
| MonthlyReports.RewriteThird | report_generator_v2.py:262-303 | clearing from the table start and filling gives the refilled sheet |
| MonthlyReports.RefillThird | report_generator_v2.py:250-310 | it succeeds exactly when the table start is found, and the sheet then becomes the refilled one; otherwise it is unchanged |
| MonthlyReports.StartFromSame | report_generator_v2.py:185-189 | two sheets that agree on column A above the start find the same start |
| MonthlyReports.FirstKeepsTable | report_generator_v2.py:183-218 | refilling ПРИЛОЖЕНИЕ 1 keeps its header, so searching again finds the same start |
| MonthlyReports.UpdateFirstNumbered | report_generator_v2.py:183-221 | appendix 1 is left untouched exactly when its table start is not found; otherwise the rows from the start are numbered 1, 2, 3, … one per work and every row above the start is kept |
| MonthlyReports.UpdateThirdTotal | report_generator_v2.py:250-310 | appendix 3 is left untouched exactly when its table start is not found; otherwise the row after the works holds "ИТОГО:" and, in column D, the sum of the works' prices |
| MonthlyReports.PriceValueSpaced | report_generator_v2.py:278-287 | a price written with a space between thousands reads as the number its digits make |
| MonthlyReports.Grids | report_generator_v2.py:53-70 | the grid of every sheet of the book, in order |
| MonthlyReports.Monthly | report_generator_v2.py:324-375 | the run keeps one grid per sheet of the book; what it does to them is stated by the three lemmas that follow |
| MonthlyReports.MonthlyStops | report_generator_v2.py:343-356 | a bad period, no data sheet or a month without works fails and leaves every sheet as it was |
| MonthlyReports.MonthlySucceeds | report_generator_v2.py:358-375 | the run succeeds exactly when both appendix sheets exist and have a table and the book was saved |
| MonthlyReports.MonthlyTouchesAppendices | report_generator_v2.py:156-310 | only the two appendix sheets change |
| MonthlyReports.UpdateFirstSheet | report_generator_v2.py:156-221 | the first sheet whose name matches is refilled, and nothing else changes |
| MonthlyReports.UpdateThirdSheet | report_generator_v2.py:223-310 | the first sheet whose name matches is refilled, and nothing else changes |
| MonthlyReports.GenerateMonthly | report_generator_v2.py:324-381 | the sheets end as the run says, and so does the answer |
| ArchivedReport.ExtractRows | _archive_old_files/report_generator_v2.py:118-180 | every entry comes from a kept row between 2 and `max_row`, is read from that row, and the entries keep sheet order |
| ArchivedReport.Extract | _archive_old_files/report_generator_v2.py:118-180 | at most one entry per data row, rows 2 to `last` |
| ArchivedReport.ExtractComplete | _archive_old_files/report_generator_v2.py:118-180 | every kept row gives its entry in the result |
| ArchivedReport.ExtractData | _archive_old_files/report_generator_v2.py:98-183 | the loop returns exactly the entries of the kept rows |
| ArchivedReport.ExtractStep | _archive_old_files/report_generator_v2.py:118-180 | one more row adds its entry exactly when it is kept |
| ArchivedReport.MonthWindow | _archive_old_files/report_generator_v2.py:152-168 | with a four-digit year, a row whose dates parse passes the date filters exactly when it starts on or after the 1st and ends on or before the last day of the month |
| ArchivedReport.UnparsedDatesPass | _archive_old_files/report_generator_v2.py:152-168 | a start or end that `%Y-%m-%d` does not parse never drops the row |
| ArchivedReport.TimestampsPass | _archive_old_files/report_generator_v2.py:152-168 | a date cell never drops the row, since its `str()` carries a time of day |
| ArchivedReport.DataRows | _archive_old_files/report_generator_v2.py:275-281 | one table row per entry |
| ArchivedReport.ReportEntry | _archive_old_files/report_generator_v2.py:271-281 | table row 8 + i holds entry i: address, start, end, work name and price as read |
| ArchivedReport.ReportBlankRows | _archive_old_files/report_generator_v2.py:299-303 | the row between the last entry and the ИТОГО line is empty, and nothing lies below the ИТОГО line |
| ArchivedReport.ReportTotalLine | _archive_old_files/report_generator_v2.py:299-303 | the ИТОГО line holds the label in A and the sum of the counted prices in E |
| ArchivedReport.UncountedPrice | _archive_old_files/report_generator_v2.py:290-295 | a price that is unset or does not parse adds nothing to the total |
| ArchivedReport.PriceValueText | _archive_old_files/report_generator_v2.py:290-295 | the decimal text of any integer reads as that integer, while a date cell adds no price |
| ArchivedReport.WriteDataRow | _archive_old_files/report_generator_v2.py:277-281 | the five cells of the row are written and nothing else changes |
| ArchivedReport.DataRowsStep | _archive_old_files/report_generator_v2.py:275-297 | writing entry i at row 8 + i extends the table by one row |
| ArchivedReport.AppendEntry | _archive_old_files/report_generator_v2.py:275-297 | one pass puts entry i at row 8 + i |
| ArchivedReport.AddPrice | _archive_old_files/report_generator_v2.py:290-295 | the total grows by the counted price of the entry |
| ArchivedReport.TotalStep | _archive_old_files/report_generator_v2.py:290-295 | the total of one more entry is the previous total plus its counted price |
| ArchivedReport.FillEntries | _archive_old_files/report_generator_v2.py:273-297 | the rows hold the entries from row 8 on and the total is the sum of the counted prices |
| ArchivedReport.WriteTotal | _archive_old_files/report_generator_v2.py:300-303 | the ИТОГО line is written and nothing else changes |
| ArchivedReport.ReportEnd | _archive_old_files/report_generator_v2.py:299-303 | the report ends at the ИТОГО line |
| ArchivedReport.GenerateReport | _archive_old_files/report_generator_v2.py:185-322 | a new "Отчет" sheet holds the header, the period, the client, the table and the ИТОГО line; the result is whether saving succeeded |
| ArchivedReport.Monthly | _archive_old_files/report_generator_v2.py:325-377 | a bad month raises; otherwise the run reports success exactly when the source loads, some row is kept and the save succeeds |
| ArchivedReport.GenerateMonthlyReport | _archive_old_files/report_generator_v2.py:325-377 | the outcome is the run above on the "Работы", else "Data", else active sheet; a report is written exactly when the source loads and some row is kept, and holds those rows for the whole month |
| Transits.SplitSecond | report_generator.py:145-147 | `s.split(m)` has a second piece when `m` occurs; the first piece is the text before `m` and the second the text up to the next `m`, which holds no `m` |
| Transits.SplitOnce | report_generator.py:145 | splitting at `m` gives the text before its first occurrence, then the pieces of the rest |
| Transits.TransitsAfter | report_generator.py:144-151 | with no marker there are no transit addresses; otherwise they are the non-empty stripped comma pieces of the stripped text after the marker, each non-empty, stripped and comma-free |
| Transits.JoinStripped | report_generator.py:147-149 | a list written out with `", ".join` has nothing to strip at either end |
| Transits.TransitsRoundTrip | report_generator.py:144-151 | an address, the marker and a list joined with ", " parse back to that list |
| ReportLayout.SourceSheet | report_generator.py:54-60 | the sheet read is the first one with the first name, else the first with the second name, else the active one |
| ReportLayout.PeriodDates | report_generator.py:321-323 | for a four-digit year the period strings read back as the 1st and the last day of the month |
| ReportLayout.PeriodStartIso | report_generator.py:322 | the start of the period is the ISO date of the 1st of the month |
| ReportLayout.PeriodEndIso | report_generator.py:321-323 | the end of the period is the ISO date of the month's last day |
| ReportLayout.Numbered | report_generator.py:222-224 | value k goes to column k + 1 and no other column is written |
| ReportLayout.HeadingRows | report_generator.py:193-229 | the heading takes seven rows |
| ReportLayout.HeadingAbove | report_generator.py:193-230 | the heading lies in rows 1 to 7, so the table starts at row 8 |
| ReportLayout.TableCell | report_generator.py:230-240 | a cell of table row 8 + i is read back as written, whatever the heading above holds |
| ReportLayout.WriteCell | report_generator.py:210-215 | one cell is written and nothing else changes |
| ReportLayout.WriteNumbered | report_generator.py:222-227 | the header row holds value k in column k + 1 and nothing else changes |
| ReportLayout.WritePair | report_generator.py:210-215 | a labelled heading row holds the label in A and the value in B, and nothing else changes |
| ReportLayout.HeadingWritten | report_generator.py:193-229 | the heading is exactly the cells written row by row: title, subtitle, period, client, headers |
| ReportLayout.WriteHeading | report_generator.py:193-229 | on an empty sheet the heading writes leave exactly the heading, with `max_row` at 7 |
| TransitReport.ParseTransitsRoundTrip | report_generator.py:131-151 | an address, "Транзитные адреса:" and a list joined with ", " parse back to that list |
| TransitReport.ParseTransits | report_generator.py:131-151 | the transits are stripped non-empty items, and there are none when the marker is absent |
| TransitReport.HasTransit | report_generator.py:121-124 | a row whose notes list some transit is flagged as a transit |
| TransitReport.FlaggedWithoutTransits | report_generator.py:121-124 | the marker alone flags a work as transit while its transit list is empty |
| TransitReport.WorkOf | report_generator.py:108-124 | a work with transit addresses is flagged and its address holds the marker |
| TransitReport.ExtractRows | report_generator.py:95-126 | every work comes from a row from 3 to `max_row` with an address, is read from that row, and the works keep sheet order |
| TransitReport.Extract | report_generator.py:69-129 | at most one work per data row, rows 3 to `last` |
| TransitReport.ExtractComplete | report_generator.py:95-126 | every row with an address gives its work in the result |
| TransitReport.ExtractStep | report_generator.py:95-126 | one more row adds its work exactly when its address is truthy |
| TransitReport.ExtractData | report_generator.py:69-129 | the loop returns exactly the works of the rows with an address |
| TransitReport.Span | report_generator.py:250-268 | a work takes at least one row, and one more per transit address when it is flagged and has some |
| TransitReport.OffsetBelow | report_generator.py:233-268 | the rows of a work end no later than the rows of all works |
| TransitReport.TableRows | report_generator.py:233-268 | the table lies in columns A to D of the rows from 8 to the end of the last work |
| TransitReport.MainRowColumns | report_generator.py:237-240 | a work's row holds exactly the columns A to D |
| TransitReport.TableWork | report_generator.py:233-268 | within the rows of a work the table holds that work's row alone |
| TransitReport.WorkCells | report_generator.py:237-240 | work i's row holds its address, its start date, the period's end and its service |
| TransitReport.TransitRowsEmpty | report_generator.py:261-266 | the rows kept for transit addresses stay empty |
| TransitReport.TableMergesRows | report_generator.py:250-259 | each table merge covers one column of A to D over rows of the table |
| TransitReport.WorkMerged | report_generator.py:250-259 | a work with transit addresses has each column A to D merged over exactly its 1 + n rows |
| TransitReport.TableMergesDisjoint | report_generator.py:250-259 | no two table merges overlap |
| TransitReport.MergesDisjoint | report_generator.py:195-259 | no two merges of the sheet overlap, the heading's included |
| TransitReport.WriteMainRow | report_generator.py:237-240 | the four cells of the work's row are written and nothing else changes |
| TransitReport.AppendWork | report_generator.py:233-240 | one pass puts work i's row below the rows of the works before it |
| TransitReport.AdvanceWork | report_generator.py:249-268 | the row counter moves past the work's rows and its merges are added |
| TransitReport.FillWorks | report_generator.py:233-268 | the sheet gains exactly the table, the merges are the table's, and the counter ends on the row after the last work |
| TransitReport.GenerateReport | report_generator.py:153-298 | a new "Задание_Отчет" sheet holds the heading and the table, with the merges of both, the service list on D8 to the counter's row, and True once saved |
| TransitReport.ExtractEmptyIff | report_generator.py:95-129 | there is something to report exactly when some row from 3 to `max_row` has an address |
| TransitReport.MonthlyOutcomes | report_generator.py:301-345 | True exactly for a valid month, a loaded file, a row with an address and a successful save; False when loading fails or no row has an address; otherwise it raises |
| TransitReport.Monthly | report_generator.py:301-345 | success only for a month from 1 to 12 with a loaded source, some work and a successful save; a source that does not load gives failure, not an exception |
| TransitReport.GenerateMonthlyReport | report_generator.py:301-345 | the outcome is the run above on the "Эксель", else "Рабочая таблица", else active sheet; a report is made exactly on True, holding that sheet's works under the month's period |
| EnhancedGenerator.MarkerFlags | enhanced_generator.py:49-50 | an address holding the lower-case marker "транзитные адреса" always passes the "транзит" test, so the split is reached |
| EnhancedGenerator.SplitAddress | enhanced_generator.py:47-57 | an address without "транзит" in any case is kept whole with no transits; one with it but without the marker is stripped with no transits; otherwise the main address is the stripped text before the marker and the transits the comma list after it |
| EnhancedGenerator.SplitAddressRoundTrip | enhanced_generator.py:47-57 | an address, the marker and a list joined with ", " split back into the stripped address and that list |
| EnhancedGenerator.LoadTasks | enhanced_generator.py:43-68 | at most one task per row, and each task's main address and transits are the split of its full address |
| EnhancedGenerator.TaskOf | enhanced_generator.py:44-67 | a kept row gives a task exactly when its last cell is text or missing; the task keeps the full address and the number and splits the address as above |
| EnhancedGenerator.LoadTasksFails | enhanced_generator.py:43-68 | loading the tasks fails exactly when some kept row has an address that is not text |
| EnhancedGenerator.LoadTasksAreKeptRows | enhanced_generator.py:43-68 | the tasks are those of the kept rows (number present and not 1), one each, in order |
| EnhancedGenerator.LoadTasksStops | enhanced_generator.py:43-68 | once a row fails, the whole load fails |
| EnhancedGenerator.Chosen | enhanced_generator.py:178 | every chosen task is a loaded task whose `str(number)` is the requested number |
| EnhancedGenerator.NumRows | enhanced_generator.py:179 | the table has at least one data row per chosen task |
| EnhancedGenerator.NumRowsPrefix | enhanced_generator.py:179 | each task adds 1 + its transit count, so a longer prefix takes no fewer rows |
| EnhancedGenerator.ServiceText | enhanced_generator.py:235 | text notes give their first 200 characters, all of them when shorter; 0 and missing notes give ""; any other value cannot be sliced |
| EnhancedGenerator.Block | enhanced_generator.py:221-288 | a task takes 1 + its transit count rows |
| EnhancedGenerator.Body | enhanced_generator.py:220-288 | the data rows number `num_rows` |
| EnhancedGenerator.Lines | enhanced_generator.py:181-288 | the table has `num_rows + 1` rows |
| EnhancedGenerator.BodyAt | enhanced_generator.py:220-288 | row k of task i's block sits at data row `num_rows` of the tasks before it + k |
| EnhancedGenerator.MainRow | enhanced_generator.py:223-236 | a task's main row holds its main address, today's date, an empty date and its service text |
| EnhancedGenerator.TransitRow | enhanced_generator.py:259-266 | transit address k of a task sits in the k-th row after its main row, written "   → " + address, dated today, with the note "(транзитный адрес)" |
| EnhancedGenerator.WriteRow | enhanced_generator.py:223-236 | the four cells of the next row are written and the rows above are kept |
| EnhancedGenerator.Generator.constructor | enhanced_generator.py:23-27 | a generator starts with no tasks and no prices |
| EnhancedGenerator.Generator.LoadData | enhanced_generator.py:30-68 | the load succeeds exactly when every listed price row converts and every kept task row has a text address; then the prices are added and the tasks appended |
| EnhancedGenerator.Generator.LoadPriceRows | enhanced_generator.py:33-39 | the price loop succeeds exactly when every listed row converts; the prices are then those rows added in order, and the tasks are untouched |
| EnhancedGenerator.Generator.LoadTaskRows | enhanced_generator.py:42-68 | the task loop succeeds exactly when every kept row has a text address; the tasks of those rows are then appended in order, and the prices are untouched |
| EnhancedGenerator.Generator.GenerateTable | enhanced_generator.py:177-288 | a new table of `num_rows + 1` rows by 4 columns holds the headers and each chosen task's block, unless some task's notes cannot be sliced |
| EnhancedGenerator.FillRows | enhanced_generator.py:220-288 | the rows below the headers hold the blocks of the chosen tasks in order, unless some notes cannot be sliced |
| EnhancedGenerator.WriteBlock | enhanced_generator.py:221-288 | a task's block is written from `row_idx` on, which moves past it |
| EnhancedGenerator.LinesSnoc | enhanced_generator.py:220-288 | one more task adds its block below the table |
| AnalyzeExcel.SplitFull | analyze_excel.py:56-73 | a task has transits exactly when its address is text that mentions "транзит" in any case and holds the marker; then the main address is the stripped text before the marker and the transits the comma list after it; otherwise there are none and an address without "транзит" is kept as it is |
| AnalyzeExcel.SplitAt | analyze_excel.py:56-73 | the same split for any hint and any non-empty marker: transits exactly when the text mentions the hint and holds the marker, the main address before it and the comma list after it |
| AnalyzeExcel.FlaggedWithoutTransits | analyze_excel.py:61-66 | an address that ends with the marker has transits by its flag, yet an empty transit list |
| AnalyzeExcel.TaskAt | analyze_excel.py:48-73 | a task carries its row number `idx + 1`, its number and full address with missing cells as "", and is flagged whenever it lists a transit |
| AnalyzeExcel.Tasks | analyze_excel.py:41-75 | one task per row whose first cell is present, in sheet order, each built from its own row |
| AnalyzeExcel.TasksComplete | analyze_excel.py:42-75 | every row whose first cell is present gives a task |
| AnalyzeExcel.ExtractTasks | analyze_excel.py:41-75 | the loop returns exactly those tasks |
| AnalyzeExcel.PricesFail | analyze_excel.py:97-104 | reading the prices fails exactly when some row with three present cells has a code or a price that does not convert |
| AnalyzeExcel.PricesHave | analyze_excel.py:97-104 | a code is in the price table exactly when some such row gives it |
| AnalyzeExcel.ExtractPrices | analyze_excel.py:97-104 | the loop returns the price table, or fails where `int()` or `float()` raises |
| AnalyzeExcel.Prices | analyze_excel.py:97-104 | the table has at most one entry per row |
| AnalyzeExcel.PricesStop | analyze_excel.py:97-104 | once a row fails, the whole loop fails |
| AnalyzeExcel.Numbers | analyze_excel.py:123 | the unique numbers are exactly the truthy numbers of the tasks |
| AnalyzeExcel.Stats | analyze_excel.py:186-192 | the total counts the tasks, the services count the price table, and no more tasks have transits than there are tasks |
| AnalyzeExcel.ListingFlagged | analyze_excel.py:61-73 | no more tasks list transit addresses than are flagged |
| AnalyzeExcel.TasksTransitsFlagged | analyze_excel.py:117-119 | a positive transit total implies a positive count of tasks with transits |
| AnalyzeExcel.ExampleTotal | analyze_excel.py:167-169 | with two or more services the example total is the price of service 1 plus that of service 4, each where listed; nothing otherwise |
| AnalyzeExcel.ListedSumListedOnly | analyze_excel.py:169 | codes missing from the table add nothing to the sum |
| AnalyzeExcel.Analyzed | analyze_excel.py:41-192 | the analysis exists exactly when the prices read; it holds the tasks and their statistics, and an example total exactly when there are tasks and two or more services |
| AnalyzeExcel.Analyze | analyze_excel.py:41-192 | the three loops give exactly the analysis above |
| ScriptOptimizer.IsExternalScript | optimize_scripts.py:29-34 | True exactly when some external pattern matches the src, ignoring case |
| ScriptOptimizer.IsCriticalScript | optimize_scripts.py:36-41 | True exactly when some critical name occurs in the line |
| ScriptOptimizer.SrcAt | optimize_scripts.py:89 | a match at a position is the attribute, a quote, a non-empty run of non-quotes and a quote; the capture is that run |
| ScriptOptimizer.SrcOf | optimize_scripts.py:89-92 | the capture is the one at the first position where the pattern matches, and there is none when it matches nowhere |
| ScriptOptimizer.SrcOfWritten | optimize_scripts.py:89-92 | a line whose first src attribute carries a quoted value gives that value |
| ScriptOptimizer.SrcAtWritten | optimize_scripts.py:89 | the pattern tried where the attribute is written captures its value |
| ScriptOptimizer.SrcOfAt | optimize_scripts.py:89 | a match with no attribute before it is the one found |
| ScriptOptimizer.Classify | optimize_scripts.py:67-115 | a line is untouched exactly when it opens no script outside a comment; skipped as handled exactly when it has defer or async; skipped as critical exactly when it has no src and is critical or in the head; the other outcomes likewise, both directions |
| ScriptOptimizer.ClassifySrc | optimize_scripts.py:91-108 | a script with a quoted src gets async exactly when the src is external and not Google Maps, async defer on Google Maps, defer otherwise |
| ScriptOptimizer.ReplaceAbsent | optimize_scripts.py:98-106 | replacing a text that does not occur leaves the line as it is |
| ScriptOptimizer.ReplaceInserts | optimize_scripts.py:98-106 | where the opening occurs, the rewritten line holds the replacement |
| ScriptOptimizer.Replace | optimize_scripts.py:96-106 | replacing a text by itself changes nothing |
| ScriptOptimizer.Rewrite | optimize_scripts.py:98-115 | a line is rewritten only by the replacement its outcome chooses, and copied otherwise |
| ScriptOptimizer.HeadAfter | optimize_scripts.py:61-64 | the head flag is set by a line holding `<head>`, and otherwise kept unless the line holds `</head>` |
| ScriptOptimizer.ProcessLine | optimize_scripts.py:67-115 | one line gets its outcome and the rewrite that outcome chooses |
| ScriptOptimizer.RewriteSrc | optimize_scripts.py:89-113 | the src is taken and the line rewritten by the rule for that src |
| ScriptOptimizer.Actions | optimize_scripts.py:59-115 | one outcome per line |
| ScriptOptimizer.Output | optimize_scripts.py:59-115 | one output line per input line |
| ScriptOptimizer.PageMarksAll | optimize_scripts.py:98-106 | each of the three openings the rewrite writes into the page carries the marker of its step: async defer, async, defer |
| ScriptOptimizer.TrackHead | optimize_scripts.py:61-64 | the head tracking gives the flag above |
| ScriptOptimizer.OptimizeLines | optimize_scripts.py:56-115 | the loop gives the output lines and the counters of the outcomes |
| ScriptOptimizer.ProcessAt | optimize_scripts.py:59-115 | line i, with the head flag of the lines up to it, gets its outcome and output line |
| ScriptOptimizer.TallySnoc | optimize_scripts.py:68-107 | the counters after one more line are the counters before, ticked by its outcome |
| ScriptOptimizer.OptimizeHtml | optimize_scripts.py:43-117 | the page is split at newlines, each line rewritten, and the lines joined back, with the counters of the outcomes |
| ScriptOptimizer.RewriteFree | optimize_scripts.py:98-106 | a rewrite puts no newline into a line |
| ScriptOptimizer.SameLines | optimize_scripts.py:46-117 | the rewritten page splits back into exactly the output lines, one per input line |
| ScriptOptimizer.PageSameLines | optimize_scripts.py:46-117 | the page's own rules keep its line structure |
| ScriptOptimizer.UntaggedUnchanged | optimize_scripts.py:114-115 | a line that opens no script outside a comment is copied unchanged |
| ScriptOptimizer.ChangedLines | optimize_scripts.py:98-106 | a line changes only when it gets one of the three replacements, and only where the opening occurs |
| ScriptOptimizer.ChangedLinesMarked | optimize_scripts.py:71-74 | a line the rewriter changed is skipped as already handled by a second pass |
| ScriptOptimizer.PageSrcUnbordered | optimize_scripts.py:89 | the src attribute cannot overlap itself, so the value after its first occurrence is the one taken |
| ScriptOptimizer.CountedButUnchanged | optimize_scripts.py:67-106 | a script whose tag is not written as "<script " is counted yet left unchanged |
| ScriptOptimizer.TotalIsTagged | optimize_scripts.py:67-68 | `total` counts exactly the lines that open a script outside a comment |
| ScriptOptimizer.CountersBound | optimize_scripts.py:68-113 | the four outcome counters never exceed `total`, and fall short of it exactly when some counted line was an inline script |
| ScriptOptimizer.TickOutcomes | optimize_scripts.py:68-113 | a counted line adds one to `total` and to at most one outcome counter, to none exactly for an inline script |

## Left out

- Network and services: the kanban board's HTTP API (cards, lists, labels, checklists) is not called; cards arrive as values. Dropbox upload, the GUI and web front ends, the SQL database and the subprocess chaining of the sync scripts are not part of this model.
- Spreadsheet and document libraries: loading and saving a workbook or a document are the `loaded` and `saved` parameters (a failed save is the `Raises` outcome). Fonts, borders, fills, column widths, alignment, data-validation styling and document paragraphs are not modelled. Of a docx table only the cell texts are kept.
- `safe_write` in windows/generate_act.py assigns the cell's value and returns False when that raises, so a write into a merged cell other than the top-left one of its range is dropped in the source; the model performs every write as a plain write. Errors the spreadsheet library raises on merged cells are not modelled either, so the error counter of the card loop in arhive/sync_trello_severen.py stays 0.
- Floating point: prices, costs and totals are integers. `float()` is modelled only for the plain decimals the act number and price cells hold. Kopeck rounding in `sum_to_words` is not modelled, so the kopecks are always "00". `to_date`'s conversion of Excel serial numbers is the `serial` parameter.
- The clock: `datetime.now()` is a parameter (`today`, `now`); the card sync of arhive/sync_trello_severen.py takes a function `clock` that gives the reading at each card. `dateutil.parser.parse` in arhive/sync_trello_severen.py is the `parseDate` parameter.
- Case folding covers ASCII and Russian letters only. `\s` is the six characters of `string.whitespace`, and `\d` the ASCII digits.
- Text.ParseInt: accepts an optional sign and ASCII digits only, where Python's `int()` also accepts underscores between digits and the other Unicode decimal digits; such text is rejected in the model.
- MonthlyReports.ParseStamp, Dates.ParseIsoDate: read ASCII digits and the six characters of `string.whitespace` only, where `strptime`'s `\d` and `\s` also match the other Unicode digits and whitespace and the separators U+001C to U+001F.
- CardParser.BareNumberAt: the word boundaries of `\b(\d{5,6})\b` count only ASCII letters and digits, '_' and Russian letters as word characters, where Python's `\w` is Unicode-wide; in a title such as "é12345" the model captures the number where Python finds no boundary and no match.
- Text.Strip: removes the six characters of `string.whitespace` only, where Python's `str.strip()` also removes the ASCII separators U+001C to U+001F and the other Unicode whitespace, such as the no-break space U+00A0. A cell or title edged with such a character keeps it in the model.
- Errors the spreadsheet library raises on writing a cell are not modelled: openpyxl refuses control characters in a text cell (IllegalCharacterError), so a card whose title or description holds one would count as an error in the source and is written in the model.
- DocumentGenerator.Generator.LoadData and EnhancedGenerator.Generator.LoadPriceRows: a workbook with no sheet named `расценки` raises KeyError at document_generator.py:30 and enhanced_generator.py:33; the model takes the price rows as given and does not model the missing sheet.
- AnalyzeExcel.Analyzed: analyze_excel.py:85, 110, 138, 155 and 174 slice values with `[:n]`, which raises TypeError when the value is not text (a number read from the sheet); the model treats every such value as text, so it returns a result where the source raises.
- TransitReport.FillWorks: `maxRow` is the last row written; openpyxl's `merge_cells` also creates placeholder cells over the whole merged range, so after a last work with transits the real `max_row` reaches its last transit row. The placeholder cells that merges create are outside the model.
- TransitReport.GenerateReport: the same `maxRow` caveat as TransitReport.FillWorks.
- pandas reading is modelled as rows of already-read values. A missing value (NaN) is the value `NA`, and `dropna(how='all')` and column lookup by header are done before the model starts. Row order is the sheet order.
- The act period (the earliest start and latest end through `to_date`), the act date and the output file name of windows/generate_act.py are only printed or used in the file name. Their values are not modelled; only whether `.min()`/`.max()` can order the values is (`ActGenerator.PeriodOrderable`). Nor is the `SystemExit` when the "Номер акта" column is missing: the model's rows always have that column.
- Printing, logging, the JSON dump of analyze_excel.py, argparse and the `main` of optimize_scripts.py (reading and writing the page file) are not modelled.
- AnalyzeExcel.Analyzed: the `sorted(unique_numbers)` and `', '.join` of analyze_excel.py:125, which raise when the numbers are not all strings, are not modelled. Only the set itself is kept.
- CardParser.ExtractWorkNumber: its own contract states only that the result is "" or a whole number of the title. That "" comes exactly when no pattern occurs, and that the first pattern in order to occur wins, is stated by CardParser.ExtractWorkNumberFirst.
- CardParser.RemoveTaskSuffix: states only that the result is no longer than the address. Its shape is stated by CardParser.RemoveTaskSuffixShape.
- SeverenParser.TitleNumber: its own contract states only that a found number is a whole number of the title. Which pattern wins is stated by SeverenParser.TitleNumberFirst; "" exactly when no pattern occurs is stated by SeverenParser.TitleNumberEmptyIff.
- SeverenParser.TitleTransits: its own contract states only the shape of the items. The items read from a written title are stated by SeverenParser.TitleTransitsWritten and SeverenParser.TitleTransitsRoundTrip.
