# budget-importer, modelled in Dafny

budget-importer pulls bank transactions from SimpleFIN, gives each one a category and a
display payee from a lookup sheet, and appends the transactions that the transactions sheet
does not hold yet. The repository has two versions. This model covers the decision logic of both.

* **The Go command** (`cmd/budget-import/main.go`, `internal/clients/google.go`):
  * configuration check;
  * category resolver: an exact key first, then a case-insensitive substring scan over a map;
  * row shaping and the filter against recorded identifiers;
  * append-then-sort sequencing over the sheets client;
  * parsers that turn untyped sheet cells into the rule map and the identifier set;
  * the Sheets API requests the client sends.
* **The Python command** (`budget/`):
  * argument check;
  * reading Paperless receipts;
  * matching receipts to transactions by amount and date;
  * exact-key categorisation;
  * conversion of a transaction to a sheet row and selection of the rows still to insert.

Files and modules:

- `wrappers.dfy` (`Wrappers`): `Option`, `Result`
- `strings.dfy` (`Strings`): lower-casing, substring test, join, `str.replace(pat, "")`, decimal notation
- `sorting.dfy` (`Sorting`): Python's stable `sorted` as a stable insertion sort by an integer key
- `common.dfy` (`Common`): amounts, the lookup-sheet rule `Category`, sheet cells, Python truthiness
- `category_resolver.dfy` (`CategoryResolver`): `applyCategoryMapping`
- `budget_import.dfy` (`BudgetImport`): `validateConfig`, `createRow`, `processTransactions`, `insertNewRows`, `runWithClients`
- `google_client.dfy` (`GoogleClient`): `parseRow`, `ParseCategoryRows`, `ParseTransactionIDs`, `GoogleSheetsClient`
- `paperless.dfy` (`PaperlessDocuments`): `Document.from_dict`, `Document.__str__`, `is_response_dict`
- `simplefin_client.dfy` (`SimpleFinClient`): `attach_receipts`, `categorize_transactions`
- `lookup_rows.dfy` (`LookupRows`): `Category.from_row`
- `gspread_client.dfy` (`GspreadClient`): `convert_to_row`, `get_category_mapping`, `insert_records_to_google_sheet`
- `import_command.dfy` (`ImportCommand`): `Args.__post_init__`, `main`

Modelling choices:

* **Go map iteration order is random.** Every Go operation that ranges over the rule map takes
  the visit order as a parameter: a sequence listing each key exactly once (`IsEnumeration`).
  Properties are stated for every such order. `processTransactions` gets one order per
  transaction, because each `range` may visit the keys differently.
* **The `payeeOut` parameter** of `applyCategoryMapping` is an in/out string.
* **Python transactions are objects.** `Transaction` is a class whose payee, category and
  receipt are updated in place. `categorize_transactions` receives a list that may hold the
  same object more than once, and each occurrence categorises it again. Its contract counts
  occurrences with `multiset`.
* **Amounts** are exact integers in the smallest unit.
* **Instants** are seconds since the epoch.
* **Dates** are day numbers from 1970-01-01.
* **Formatted cells** stay symbolic: `Float(a)`, `LocalDate(e)` and `UtcDate(e)` stand for the
  float conversion and the date texts.
* **An exact key without a category does not end the lookup.** The code falls through to the
  substring scan (cmd/budget-import/main.go:263-269), and `ExactWithoutCategoryFallsThrough`
  states it.

## Model

| member | source | states |
|---|---|---|
| BudgetImport.ValidateConfig | cmd/budget-import/main.go:102-118 | accepted iff (access URL, or username and password) and credentials path and spreadsheet ID are all given; otherwise one of the three messages |
| BudgetImport.SimpleFinReportedFirst | cmd/budget-import/main.go:103-106 | missing SimpleFIN credentials are reported whatever the Google settings |
| BudgetImport.CredentialsReportedBeforeSpreadsheet | cmd/budget-import/main.go:109-115 | once SimpleFIN is configured (access URL, or username and password), a missing credentials path is reported before a missing spreadsheet ID |
| BudgetImport.CreateRow | cmd/budget-import/main.go:235-254 | six cells: ID, mapped payee, amount, posted date, category, empty receipt; the payee cell is the effective payee or the name of a rule whose key equals or occurs in it, the category cell empty or the category of such a rule |
| BudgetImport.DescriptionReplacesEmptyPayee | cmd/budget-import/main.go:236-239 | a transaction with an empty payee gives the row it would give with its description as payee |
| BudgetImport.NewRowsAreNewIds | cmd/budget-import/main.go:214-227 | one six-cell row per unrecorded transaction, in order; the rows' first cells are exactly the new identifiers |
| BudgetImport.NewIdsExact | cmd/budget-import/main.go:221-223 | every emitted identifier is unrecorded and from the batch; every unrecorded transaction's identifier is emitted |
| BudgetImport.NewIdsAppend | cmd/budget-import/main.go:214-227 | the identifiers emitted for two batches in turn are those emitted for their concatenation, in order |
| BudgetImport.NewIdsSingle | cmd/budget-import/main.go:221-226 | one transaction emits its identifier exactly when it is not recorded |
| BudgetImport.RepeatsNotCollapsed | cmd/budget-import/main.go:217-227 | two transactions with the same unrecorded identifier, anywhere in the batch, each emit it in place |
| BudgetImport.MarkAll | cmd/budget-import/main.go:221 | the identifier map after recording `ids` holds all of them and everything held before |
| BudgetImport.AllRecordedNoNewIds | cmd/budget-import/main.go:221-223 | a batch whose identifiers are all recorded emits nothing |
| BudgetImport.Idempotent | cmd/budget-import/main.go:205-233 | re-running with the emitted identifiers recorded emits no rows, whatever the visit orders |
| BudgetImport.NewRowsStep | cmd/budget-import/main.go:221-226 | one more transaction extends the rows by its row exactly when it is unrecorded |
| BudgetImport.ProcessTransactions | cmd/budget-import/main.go:205-233 | the rows equal `NewRows` over all accounts' transactions in order, each with its own visit order |
| BudgetImport.ProcessAccount | cmd/budget-import/main.go:217-227 | the inner loop extends the rows to those of the account's transactions and advances the counter by their number |
| BudgetImport.AppendUnrecorded | cmd/budget-import/main.go:221-226 | one inner-loop step extends `NewRows` by one transaction |
| BudgetImport.SheetsClient.constructor | cmd/budget-import/main.go:23-28 | a client with the given replies and an empty call log |
| BudgetImport.SheetsClient.GetCategoryMapping | cmd/budget-import/main.go:24 | logs the call and returns the configured rule map or error |
| BudgetImport.SheetsClient.GetExistingTransactionIDs | cmd/budget-import/main.go:25 | logs the call and returns the configured identifier map or error |
| BudgetImport.SheetsClient.AppendRows | cmd/budget-import/main.go:26 | logs the call with its rows and returns the configured error |
| BudgetImport.SheetsClient.SortByDate | cmd/budget-import/main.go:27 | logs the call and returns the configured error |
| BudgetImport.InsertNewRows | cmd/budget-import/main.go:286-312 | no rows: no call and no error; otherwise append, and on success sort; an append error returns before the sort; each error is wrapped with its message |
| BudgetImport.RunWithClients | cmd/budget-import/main.go:137-151 | rule map, then recorded IDs, then the fetch, then the insert of `NewRows`; the first failure ends the run with its wrapped message and the calls made so far |
| CategoryResolver.KeyMatchesItself | cmd/budget-import/main.go:270 | a key always matches a payee equal to it |
| CategoryResolver.FirstMatch | cmd/budget-import/main.go:269-281 | the first position in the visit order whose lower-cased key occurs in the lower-cased payee, or none iff no key does |
| CategoryResolver.ApplyCategoryMapping | cmd/budget-import/main.go:256-284 | the loop with its `break` computes `Resolve` for the given visit order |
| CategoryResolver.ExactCategoryWins | cmd/budget-import/main.go:258-266 | an exact key with a category returns it; the payee becomes the rule's name if present, else is unchanged |
| CategoryResolver.ExactWithoutCategoryFallsThrough | cmd/budget-import/main.go:258-281 | an exact key without a category applies its name, then the scan runs on the original payee and always stops on a matching key |
| CategoryResolver.NoMatchLeavesPayee | cmd/budget-import/main.go:269-283 | no exact key and no matching key: category "" and the payee unchanged (also for the empty map) |
| CategoryResolver.ScanStopsAtFirstMatch | cmd/budget-import/main.go:269-281 | the scan stops at the first matching key, also one without a category (then the category is "") |
| CategoryResolver.ResolveSound | cmd/budget-import/main.go:256-284 | a non-empty category is some matching key's category; the payee is the input or a matching key's name |
| CategoryResolver.OrderIrrelevantWhenUnique | cmd/budget-import/main.go:269 | when at most one key matches, every visit order gives the same result |
| CategoryResolver.ScanUsesOriginalPayee | cmd/budget-import/main.go:270 | the scan tests the original payee, not the one an exact rule renamed |
| GoogleClient.NonEmptyStringAt | internal/clients/google.go:67-84 | a value exactly when the cell exists, is a string and is not empty |
| GoogleClient.ParseRow | internal/clients/google.go:62-85 | none iff the row is empty; category from cell 1 and name from cell 2, each only when a non-empty string |
| GoogleClient.ParseRowIgnoresExtraCells | internal/clients/google.go:67-84 | cells past the third never change the rule |
| GoogleClient.CategoryMap | internal/clients/google.go:91-101 | the empty string is never a key |
| GoogleClient.CategoryMapKeys | internal/clients/google.go:91-101 | keys are exactly the non-empty string first cells of non-empty rows |
| GoogleClient.CategoryMapLastWins | internal/clients/google.go:91-101 | a key's rule is the one of the last row carrying it |
| GoogleClient.IdMap | internal/clients/google.go:110-116 | every value is true |
| GoogleClient.IdMapKeys | internal/clients/google.go:107-119 | keys are exactly the string first cells of non-empty rows, the empty string included |
| GoogleClient.EmptyIdRecorded | internal/clients/google.go:88-119 | an empty first cell is an identifier but never a rule key |
| GoogleClient.ParseCategoryRows | internal/clients/google.go:88-104 | the loop builds `CategoryMap` |
| GoogleClient.ParseTransactionIds | internal/clients/google.go:107-119 | the loop builds `IdMap` |
| GoogleClient.FirstSheetId | internal/clients/google.go:178-186 | 0 when no sheet has the title; otherwise the id of the first sheet with it |
| GoogleClient.GoogleSheetsClient.constructor | internal/clients/google.go:21-34 | a client for a spreadsheet with no requests sent yet |
| GoogleClient.GoogleSheetsClient.GetCategoryMapping | internal/clients/google.go:37-60 | one read of columns A to C; the wrapped error, or `CategoryMap` of the rows |
| GoogleClient.GoogleSheetsClient.GetExistingTransactionIds | internal/clients/google.go:122-141 | one read of column A; the wrapped error, or `IdMap` of the rows |
| GoogleClient.GoogleSheetsClient.AppendRows | internal/clients/google.go:144-169 | nothing sent for no rows; otherwise one user-entered, row-inserting append of columns A to F, and its wrapped error |
| GoogleClient.GoogleSheetsClient.SortByDate | internal/clients/google.go:172-215 | reads the spreadsheet, then sends one descending sort of column D over rows from 2 and columns A to F of the first sheet with the name (id 0 if none); each failure wrapped with its message |
| PaperlessDocuments.FirstField | budget/models/paperless.py:93 | none iff no custom field has the number; otherwise the index of the first that does |
| PaperlessDocuments.FromDict | budget/models/paperless.py:91-105 | a bad date fails first; succeeds iff the date parses and the first total field (if any) parses; id, title and date copied; total absent without a total field, else the negated value of the first with "USD" removed; category the first category field's value, else none |
| PaperlessDocuments.FirstFieldAppend | budget/models/paperless.py:93 | appending a field changes the first index only when there was none and the field has the number |
| PaperlessDocuments.FirstTotalFieldWins | budget/models/paperless.py:93-95 | a second total field leaves the document unchanged |
| PaperlessDocuments.DocumentUrl | budget/models/paperless.py:48-50 | the link starts with the documents address and ends with a slash |
| PaperlessDocuments.TotalOfDropsCurrency | budget/models/paperless.py:94-95 | a total "USD" followed by an amount without "USD" is the negated amount, or fails when the amount does not parse |
| PaperlessDocuments.TotalOfPlainAmount | budget/models/paperless.py:94-95 | a total without "USD" is the negated amount, or fails when it does not parse |
| PaperlessDocuments.DocumentUrlIdentifies | budget/models/paperless.py:48-50 | two documents have the same link iff they have the same id |
| PaperlessDocuments.IsResponseDict | budget/models/paperless.py:24-32 | true iff an object with `count`, `next` and `results` |
| PaperlessDocuments.AllKeyOptional | budget/models/paperless.py:27 | the `all` key plays no part |
| Strings.RemoveAll | budget/models/paperless.py:95 | the result is no longer than the input |
| Strings.RemoveAllPrefix | budget/models/paperless.py:95 | a leading "USD" is dropped and the scan goes on after it |
| Strings.RemoveAllAbsent | budget/models/paperless.py:95 | a value without "USD" is left as it is |
| Strings.IntToStringInjective | budget/models/paperless.py:48-50 | different ids have different decimal notations |
| Strings.ParseNatToString | budget/models/paperless.py:48-50 | decimal notation reads back to the number |
| Strings.Lower | cmd/budget-import/main.go:270 | lower-casing keeps the length |
| Sorting.SortBy | budget/clients/simplefin.py:124 | the sort keeps the length and the elements (as a multiset) |
| Sorting.SortBySorted | budget/clients/simplefin.py:129 | the sorted list is ordered by the key |
| Sorting.SortByStable | budget/clients/simplefin.py:129 | elements with the same key keep their order |
| Sorting.SortByHead | budget/clients/simplefin.py:124 | the head of the sorted list is the earliest element with the smallest key |
| SimpleFinClient.Transaction.constructor | budget/models/simplefin.py:79-89 | a transaction with the given fields, no category and no receipt |
| SimpleFinClient.Flatten | budget/clients/simplefin.py:120-127 | as many transactions as the accounts hold, each from some account |
| SimpleFinClient.FlattenContains | budget/clients/simplefin.py:120-127 | every transaction of every account is collected |
| SimpleFinClient.ReceiptsForMembers | budget/clients/simplefin.py:115-118 | the candidates for an amount are exactly the receipts with a non-zero total equal to it |
| SimpleFinClient.GroupReceipts | budget/clients/simplefin.py:115-118 | looking up any amount in the grouping gives its candidates in input order; no group is empty |
| SimpleFinClient.LatestIndex | budget/clients/simplefin.py:124 | the position of the latest date, the earliest among equals |
| SimpleFinClient.ChooseReceipt | budget/clients/simplefin.py:124 | none iff there are no candidates |
| SimpleFinClient.ChooseReceiptIsFirstSorted | budget/clients/simplefin.py:124 | the head of the candidates sorted by days before the transaction is the latest-dated, earliest-listed candidate, whatever the transaction's date |
| SimpleFinClient.AttachReceipts | budget/clients/simplefin.py:109-131 | every transaction gets the chosen receipt and that receipt's category (or none), its payee unchanged; the result is all transactions sorted newest first |
| SimpleFinClient.AttachAccount | budget/clients/simplefin.py:121-127 | each transaction of one account gets the receipt and category chosen among all receipts |
| SimpleFinClient.AttachEach | budget/clients/simplefin.py:121-127 | each transaction gets the receipt chosen among the grouped candidates for its amount |
| SimpleFinClient.AttachReceipt | budget/clients/simplefin.py:123-126 | one transaction gets the chosen receipt and its category; the payee is unchanged |
| SimpleFinClient.AttachedReceiptMatchesAmount | budget/clients/simplefin.py:115-124 | an attached receipt is one of the receipts, its total equals the amount, and the amount is not zero |
| SimpleFinClient.NewestFirst | budget/clients/simplefin.py:129 | the result holds each transaction as often as the accounts do, newest first, equal instants in account order |
| SimpleFinClient.Categorize | budget/clients/simplefin.py:103-107 | exact lookup only; a truthy category is never overwritten; the category changes iff the payee is a key, the category is falsy and the rule's is truthy; the payee changes only to a truthy rule name |
| SimpleFinClient.CategorizeTimesKeepsCategory | budget/clients/simplefin.py:104-105 | however often categorised, a truthy category stays |
| SimpleFinClient.CategorizeTimesMissingKey | budget/clients/simplefin.py:103 | a payee that is not a key is never changed |
| SimpleFinClient.CategorizeTimesSource | budget/clients/simplefin.py:103-105 | the category is the original one or some rule's truthy category |
| SimpleFinClient.CategorizeOne | budget/clients/simplefin.py:103-107 | one step applied to one transaction; the receipt is unchanged |
| SimpleFinClient.CategorizeTransactions | budget/clients/simplefin.py:96-107 | each transaction is categorised once per occurrence in the list; receipts unchanged |
| LookupRows.FromRow | budget/models/google.py:11-13 | a row of at most one cell gives no category and no name; two cells give the category; three or more give both |
| LookupRows.FromRowIgnoresExtraCells | budget/models/google.py:12-13 | cells past the third are ignored |
| LookupRows.EmptyCellsKept | budget/models/google.py:12-13 | empty cells are kept as "" |
| GspreadClient.ConvertToRow | budget/clients/google.py:20-29 | six cells |
| GspreadClient.ConvertToRowCells | budget/clients/google.py:22-29 | ID, payee, amount and the date of `transacted_at`; the category cell is empty iff the category is falsy; the receipt cell is empty iff no receipt, and two receipt cells agree iff they link the same document |
| GspreadClient.ReadError | budget/clients/google.py:55-56 | an assertion error iff there are no rows, else an index error |
| GspreadClient.FirstCells | budget/clients/google.py:56 | exactly the rows' first cells |
| GspreadClient.RowRules | budget/clients/google.py:57 | every row's first cell is a key |
| GspreadClient.RowRulesKeys | budget/clients/google.py:57 | the rule keys are exactly the first cells |
| GspreadClient.RowRulesLastWins | budget/clients/google.py:57 | a later row with the same first cell wins, its value being `from_row` of that row |
| GspreadClient.CategoryMapping | budget/clients/google.py:50-58 | fails iff there are no rows or some row is empty, with the error Python raises |
| GspreadClient.CategoryMappingRules | budget/clients/google.py:56-57 | the rule map's keys are the returned set, and each key's rule comes from its last row |
| GspreadClient.NewRecords | budget/clients/google.py:69 | no more records than transactions |
| GspreadClient.NewRecordsAppend | budget/clients/google.py:69 | selection over two lists in turn is selection over their concatenation (order kept) |
| GspreadClient.NewRecordsSingle | budget/clients/google.py:69 | a transaction's row is selected iff its identifier is not recorded |
| GspreadClient.NewRecordsSound | budget/clients/google.py:69 | every selected row is the row of a listed, unrecorded transaction |
| GspreadClient.NewRecordsNoneRecorded | budget/clients/google.py:69 | with no identifier recorded, every transaction's row is selected, in order |
| GspreadClient.NewRecordsAllRecorded | budget/clients/google.py:69 | with every identifier recorded, nothing is selected |
| GspreadClient.RecordsToInsert | budget/clients/google.py:66-69 | fails iff there are no rows or some row is empty; otherwise at most one record per transaction |
| GspreadClient.RecordsToInsertIdempotent | budget/clients/google.py:68-69 | once every identifier is a first cell, nothing is selected again |
| ImportCommand.ValidateArgs | budget/main.py:33-44 | no error iff no group is missing; otherwise "Missing CLI Args \n" and the missing groups' messages joined by newlines |
| ImportCommand.MissingIff | budget/main.py:35-40 | accepted iff some SimpleFIN field, some Paperless field and some Google field are given |
| ImportCommand.MissingMessages | budget/main.py:35-44 | each group's message appears iff the group is missing, in the order SimpleFIN, Paperless, Google |
| ImportCommand.NothingGivenMessage | budget/main.py:42-44 | with nothing given, the message lists the three groups on their own lines |
| ImportCommand.ReceiptBeforeRules | budget/main.py:58-59 | a truthy receipt category survives categorisation; a rule's category only fills in where the receipt gave none |
| ImportCommand.Import | budget/main.py:53-61 | an unreadable lookup sheet stops the run before any transaction changes; otherwise each transaction ends with its chosen receipt and its labels categorised from the receipt's, and the records are those not yet in the sheet |

## Left out

- The HTTP clients are not modelled: the SimpleFIN fetch, the Paperless pagination and the gspread and Google API calls are network I/O. Their replies are parameters (`fetched`, `reply`, `spreadsheet`, the worksheet values) or fixed replies of the modelled client.
- Configuration loading, the command-line parser, logging and the `with` blocks that close sessions are not modelled.
- Float conversion of amounts and date formatting stay symbolic cell constructors.
- Go's `strings.ToLower` is modelled as ASCII lower-casing. Unicode case mapping is not modelled.
- `date.fromisoformat` and `Decimal(...)` are function parameters that return none where Python raises. Decimal arithmetic beyond negation is not needed.
- Python's `int(data["id"])` is taken as already an integer.
- In `insert_records_to_google_sheet`, the `append_rows` and `sort` calls are gspread calls and are not modelled; Python makes them even when no record is selected. The model stops at the records handed to `append_rows`.
- GoogleClient.GoogleSheetsClient.constructor: takes the spreadsheet ID only; the credentials file and the failure to create the Sheets service (internal/clients/google.go:25-28) are not modelled.
- Go's `GetCategoryMapping`/`GetExistingTransactionIDs` are modelled with the API reply as a parameter. Transport errors are a `Failure` reply.
- The inner loops of `processTransactions` and `attach_receipts`, and the bodies of the `categorize_transactions` and `attach_receipts` loops, are separate methods (`ProcessAccount`, `AppendUnrecorded`, `AttachAccount`, `AttachEach`, `AttachReceipt`, `CategorizeOne`). Apart from the next line, they make the same updates in the same order.
- SimpleFinClient.AttachReceipts: appends a whole account's transactions to the result after attaching their receipts, where `attach_receipts` appends each transaction inside the inner loop (budget/clients/simplefin.py:127). The result and every object's fields are the same; only the moment of each append differs.
- `SortByDate` takes the spreadsheet read as one reply; the Sheets API's sheet list is a sequence of title and id pairs.
- The JSON deserialisers that copy fields one by one (`from_dict` of the SimpleFIN records) are not modelled; `Transaction` is built by its constructor.
