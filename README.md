# Finance import and budget core, modelled in Dafny

This project models the bookkeeping core of a small financial-analysis
application. Monthly profit-and-loss workbooks are imported into one of two
stores: a Firebase document tree, or an SQLite database. Report and budget
pages then read the data back.

The model covers five parts.

- **Firebase import.** A sheet title such as "KLAB 2022" gives the company
  and the year. The row with at least three month names gives the month
  columns. Marker rows delimit the revenue block ("RÖRELSENS INTÄKTER") and
  the expense block ("RÖRELSENS KOSTNADER"). Every remaining account row
  becomes an account, a raw label with a mapping, and one "faktiskt"
  (actual) value per non-zero month cell.
- **SQLite import.** This variant uses different rules:
  - a searched 3–4 capital-letter company code;
  - a header found by "jan"/"feb";
  - months matched by substring;
  - keyword-only classification;
  - a different skip list;
  - zero amounts dropped after conversion;
  - get-or-create for companies, raw labels, accounts and mappings.
- **The Firebase store.** Each path of the tree is a keyed collection. Push
  keys grow, so key order is insertion order. The store has:
  - always-push creators;
  - field-equality filters;
  - find-or-create for raw labels;
  - first-match upserts for budget and seasonality values;
  - idempotent seeding of the two categories "Intäkter" and "Kostnader".
- **Report helpers.** These cover:
  - the sorted years of a company;
  - the rows of a dataset;
  - the monthly revenue/expense buckets and their results;
  - the year-to-date running sums;
  - the largest accounts of a category.
- **The budget page.** These cover:
  - the table of actual values;
  - the choice of the latest budget and its rows;
  - collecting the budget fields with their fallbacks;
  - the diff between the original and the edited budget grid;
  - saving a budget through the upsert.

Modules:

- `Options`: `Option`.
- `Text`: Python string primitives.
- `Months`: the month table.
- `Cells`: sheet cells (missing, int, float or text), `str()` and `float()`.
- `FirebaseParse` / `FirebaseEtl`: the Firebase import.
- `SqliteParse` / `SqliteEtl`: the SQLite import.
- `Store`: the keyed collections and the Firebase database.
- `Helpers`: the report helpers.
- `ExcelView`: the budget page.
- `CompareImports`: how the two imports differ on one cell.

Parts that change state are classes with `modifies` clauses:

- `Store.Collection`, `Store.FirebaseDB` and `SqliteEtl.SqliteDB`;
- the import loops, the store's scans and the page loops, which are methods
  with loop invariants.

Each method is proved against a specification function. The properties of
those functions are proved as lemmas.

Modelling choices:

- Keys are natural numbers handed out in increasing order.
- Python's `None` results are `Option`.
- Amounts are exact reals.
- A sheet is a grid of `Empty | Int(int) | Num(real) | Str(string)` cells.

## Model

| member | source | states |
|---|---|---|
| Months.MonthKeysAreNames | src/etl/excel_to_firebase.py:26-31 | a token is a key of the month table exactly when it is one of the twelve Swedish short names or the twelve English full names |
| Months.MonthOfNames | src/etl/excel_to_firebase.py:26-31 | the k-th Swedish short name and the k-th English full name both give month k + 1 |
| Months.TableKeysDistinct | src/etl/excel_to_firebase.py:26-31 | the 24 month tokens are pairwise different, so the dictionary has 24 keys |
| Months.TableMonthsInRange | src/etl/excel_to_sqlite.py:31-36 | every month number of the table is from 1 to 12 |
| Months.LookupFromFinds | src/etl/excel_to_firebase.py:307 | a table lookup succeeds exactly when some entry has the token, and gives that entry's month |
| Text.StripShape | src/etl/excel_to_firebase.py:74 | `strip()` gives the text without its surrounding whitespace, starting and ending with a non-space character |
| Text.StripOfStripped | src/etl/excel_to_firebase.py:76 | stripping an already stripped text changes nothing |
| Text.ReplaceCommaIdempotent | src/etl/excel_to_firebase.py:301-302 | the decimal-comma rewrite is idempotent |
| Text.NatTextRoundTrip | src/etl/excel_to_firebase.py:77 | `int(str(n)) == n` for the decimal text of a natural number |
| Text.StrLessTransitive | pages_excel_view.py:93 | Python's string `<` (used on the budget timestamps) is transitive |
| Text.StrLessTotal | pages_excel_view.py:93 | two different strings are ordered one way or the other |
| Text.ContainsAt | src/etl/excel_to_firebase.py:132 | `sub in s` holds exactly when `sub` starts at some position of `s` |
| Cells.NumText | src/etl/excel_to_firebase.py:109 | `str()` of a float carries a decimal point ("2022.0") |
| Cells.CellText | src/etl/excel_to_firebase.py:109 | a float cell's text carries a decimal point; an int cell's text has none and ends in a digit ("3010") |
| FirebaseParse.NumTextStart | src/etl/excel_to_firebase.py:93 | `str()` of a number, int or float, starts with a minus sign or a digit, so it is never a month token |
| Cells.TextAmountCommaInsensitive | src/etl/excel_to_firebase.py:301-306 | "1,5" and "1.5" convert to the same amount |
| FirebaseParse.ParseSheetNameShape | src/etl/excel_to_firebase.py:70-82 | a parsed title is a trimmed, non-empty company, whitespace and four digits; a title that does not end in whitespace and four digits gives none |
| FirebaseParse.ParseSheetNameRoundTrip | src/etl/excel_to_firebase.py:74-79 | for a trimmed company `c` and four digits `d`, parsing `c + " " + d` gives `(c, int(d))` |
| FirebaseParse.MonthTokenFaithful | src/etl/excel_to_firebase.py:93 | a cell holds a month token exactly when it is present and its stripped text is a month key |
| FirebaseParse.RowMonthsFacts | src/etl/excel_to_firebase.py:91-94 | a row's month cells are listed exactly, each with its token, in strictly increasing column order |
| FirebaseParse.FindDataStart | src/etl/excel_to_firebase.py:84-102 | the start is the row after the first row with at least three month cells, and that row's month columns are sorted by column; with no such row it gives no start and no months |
| FirebaseParse.HeaderRowIs | src/etl/excel_to_firebase.py:97-100 | a row with at least three month cells after rows with fewer is the header row |
| FirebaseParse.CleanAccountNameShape | src/etl/excel_to_firebase.py:104-114 | the cleaned name of a present cell is a trimmed piece of its stripped text, so never longer than it |
| FirebaseParse.CleanKeepsWord | src/etl/excel_to_firebase.py:111-112 | a single word, "Total" included, is kept as it is |
| FirebaseParse.CleanDropsTotalPrefix | src/etl/excel_to_firebase.py:111 | "Total <word>" loses its prefix |
| FirebaseParse.FindSections | src/etl/excel_to_firebase.py:116-156 | the loop through the four-way elif chain gives the blocks of the marker rows it reads |
| FirebaseParse.SectionsStep | src/etl/excel_to_firebase.py:131-145 | one more row changes each marker found so far only through its own branch of the chain |
| FirebaseParse.RevenueBlockExists | src/etl/excel_to_firebase.py:148-149 | the revenue block exists exactly when a row containing the revenue marker is followed later by a row containing the revenue-total marker |
| FirebaseParse.RevenueBlockBounds | src/etl/excel_to_firebase.py:132-149 | the block runs from the row after the first revenue marker to the row before the last total row after it |
| FirebaseParse.ExpenseBlockExists | src/etl/excel_to_firebase.py:140-145 | the expense block exists exactly when a row reaching the expense branch of the chain is followed later by a row reaching the expense-total branch |
| FirebaseParse.ExpenseBlockBounds | src/etl/excel_to_firebase.py:140-152 | the block runs from the row after the first expense-marker row to the row before the last expense-total row after it, counting only rows the revenue branches do not take |
| FirebaseParse.CategorizeAccount | src/etl/excel_to_firebase.py:158-183 | the revenue block first, then the expense block, then "Intäkter" exactly when a revenue keyword occurs in the lower-cased name, otherwise "Kostnader" |
| FirebaseParse.CellAmount | src/etl/excel_to_firebase.py:295-320 | a missing cell gives nothing; a number, int or float, gives its value unless it is zero |
| FirebaseEtl.MonthNumbersInRange | src/etl/excel_to_firebase.py:307 | the month columns carry month numbers from 1 to 12 |
| FirebaseEtl.PlanSheet | src/etl/excel_to_firebase.py:189-210 | an accepted sheet has a non-empty company, a non-zero year, at least three month columns in 1..12 and at least one block |
| FirebaseEtl.ZeroYearRefused | src/etl/excel_to_firebase.py:190-193 | a title with the year "0000" is refused |
| FirebaseEtl.FactsWellFormed | src/etl/excel_to_firebase.py:247-322 | every fact of the row loop names an accepted account and a month from 1 to 12 |
| FirebaseEtl.RowFactsWellFormed | src/etl/excel_to_firebase.py:251-266 | an empty, "Tot"/"Total" or heading/total row yields no fact |
| FirebaseEtl.CellFactsNext | src/etl/excel_to_firebase.py:294-320 | one more month column adds its amount last, and only when its cell gives one |
| FirebaseEtl.StoreCells | src/etl/excel_to_firebase.py:293-320 | the month loop pushes, in column order, one "faktiskt" value per month column inside the row whose cell gives an amount |
| FirebaseEtl.FindOrCreateAccount | src/etl/excel_to_firebase.py:276-287 | the first account with the name (in the category, when known) is reused; otherwise exactly one account is pushed |
| FirebaseEtl.MapLabel | src/etl/excel_to_firebase.py:289-291 | the row's raw label exists afterwards and exactly one mapping to the account with confidence 1.0 is pushed |
| FirebaseEtl.ProcessRow | src/etl/excel_to_firebase.py:270-320 | an account row reuses or creates its account, records its label and mapping, and stores its month values |
| FirebaseEtl.ProcessRows | src/etl/excel_to_firebase.py:247-322 | after the row loop the values pushed store exactly the sheet's facts, in order, and one sound mapping is pushed per account row |
| FirebaseEtl.FindOrCreateCompany | src/etl/excel_to_firebase.py:212-225 | the first company with the name is reused; otherwise one is pushed in Stockholm |
| FirebaseEtl.WriteSheet | src/etl/excel_to_firebase.py:212-322 | one dataset "<company> <year>" is pushed under the company, and its values store the sheet's facts |
| FirebaseEtl.ProcessSheet | src/etl/excel_to_firebase.py:185-325 | the result is true exactly when the sheet passes its checks; a refused sheet writes nothing |
| FirebaseEtl.CountWhereAll | src/etl/excel_to_firebase.py:358 | every sheet counts exactly when every sheet is accepted |
| FirebaseEtl.RunEtl | src/etl/excel_to_firebase.py:327-363 | the run succeeds exactly when the workbook exists, has sheets and every sheet is accepted; each accepted sheet adds one dataset, and both categories exist afterwards |
| Store.Collection.Push | models_firebase_database.py:135-137 | a push stores the record under a fresh key after every existing one and changes nothing else |
| Store.Collection.Put | models_firebase_database.py:325 | an update rewrites one existing child and adds none |
| Store.Collection.FirstWhere | models_firebase_database.py:190-194 | the first key, in key order, whose record matches; none when no record matches |
| Store.Collection.FindFirst | models_firebase_database.py:188-194 | the scan that stops at the first match finds the first matching key, and finds one exactly when some record matches |
| Store.Collection.LastWhere | src/etl/excel_to_firebase.py:237-241 | the last matching key, so that a later match overrides an earlier one |
| Store.Collection.Where | models_firebase_database.py:163 | the dict comprehension keeps exactly the matching children, unchanged |
| Store.FirstKeyExtends | models_firebase_database.py:320-326 | records pushed later do not change which record matches first |
| Store.FirstKeyPush | models_firebase_database.py:328-330 | a record pushed when nothing matched is the first match |
| Store.UpsertReadsBack | models_firebase_database.py:306-330 | after the upsert the cell written reads back the new amount, and every other cell reads as before |
| Store.CategoryIds | src/etl/excel_to_firebase.py:232-241 | the category loop keeps the last category named "Intäkter" and the last named "Kostnader" |
| Store.FirebaseDB.CreateCompany | models_firebase_database.py:127-137 | exactly one company is pushed under a fresh key, with no deduplication |
| Store.FirebaseDB.CreateDataset | models_firebase_database.py:144-155 | exactly one dataset is pushed under a fresh key, with no deduplication |
| Store.FirebaseDB.GetDatasets | models_firebase_database.py:157-165 | exactly the datasets of the company, or all of them when no company is given |
| Store.FirebaseDB.GetRawLabelByName | models_firebase_database.py:188-194 | the first raw label with the text, or none when no label has it |
| Store.FirebaseDB.CreateRawLabel | models_firebase_database.py:167-181 | an existing label's key is returned with the store unchanged; otherwise exactly one label with the text is pushed |
| Store.FirebaseDB.CreateAccountCategory | models_firebase_database.py:196-206 | exactly one category is pushed under a fresh key |
| Store.FirebaseDB.CreateAccount | models_firebase_database.py:213-224 | exactly one account is pushed under a fresh key, with no deduplication |
| Store.FirebaseDB.GetAccounts | models_firebase_database.py:226-234 | exactly the accounts of the category, or all of them when no category is given |
| Store.FirebaseDB.CreateAccountMapping | models_firebase_database.py:236-247 | exactly one mapping is pushed under a fresh key, with no deduplication |
| Store.FirebaseDB.CreateValue | models_firebase_database.py:254-267 | exactly one value is pushed under a fresh key, with no deduplication |
| Store.FirebaseDB.GetValues | models_firebase_database.py:269-280 | the values passing both filters, each applying only when given |
| Store.FirebaseDB.CreateBudget | models_firebase_database.py:282-294 | exactly one budget is pushed, created and updated at the given time |
| Store.FirebaseDB.GetBudgets | models_firebase_database.py:296-304 | exactly the budgets of the company, or all of them when no company is given |
| Store.FirebaseDB.UpdateBudgetValue | models_firebase_database.py:306-330 | the first value of (budget, account, month) is rewritten and the count stays; otherwise exactly one value is pushed; an amount of 0 is stored like any other; nothing else changes |
| Store.FirebaseDB.GetBudgetValues | models_firebase_database.py:332-340 | exactly the values of the budget, or all of them when no budget is given |
| Store.FirebaseDB.CreateSeasonalityIndex | models_firebase_database.py:342-352 | exactly one index is added under a fresh key |
| Store.FirebaseDB.UpdateSeasonalityValue | models_firebase_database.py:354-378 | the same first-match upsert, keyed on (index, year, month) |
| Store.FirebaseDB.InitDatabase | models_firebase_database.py:380-391 | both categories exist afterwards; only a missing one is created, so a second call creates nothing |
| Store.SeedCategory | models_firebase_database.py:385-387 | the category is created exactly when none has its name |
| Store.Seeded | models_firebase_database.py:380-391 | with both categories present the seeding changes nothing, and it adds at most two |
| Store.FindOrPush | src/etl/excel_to_sqlite.py:90-98 | `.first()` then add: the first matching row, or the new row under a fresh key, which is then the first match |
| SqliteParse.ParseTitleShape | src/etl/excel_to_sqlite.py:55-69 | a parsed company is three or four ASCII capitals and the year is the value of four digits |
| SqliteParse.ParseTitleRoundTrip | src/etl/excel_to_sqlite.py:60-66 | three or four capitals, a space and four digits parse back to those capitals and that year |
| SqliteParse.CategoryOfRevenueWords | src/etl/excel_to_sqlite.py:71-88 | "Intäkter" exactly when a revenue keyword occurs in the lower-cased label, otherwise "Kostnader": the expense keywords never change the outcome |
| SqliteParse.FindHeader | src/etl/excel_to_sqlite.py:163-172 | the first row whose cells after the first mention both "jan" and "feb"; none when no row does |
| SqliteParse.MonthInFromFirst | src/etl/excel_to_sqlite.py:180-183 | a header text gets the month of the first table entry, in table order, whose lower case occurs in it |
| SqliteParse.TextMonthInRange | src/etl/excel_to_sqlite.py:180-183 | every mapped month is from 1 to 12 |
| SqliteParse.HeaderMonthsShape | src/etl/excel_to_sqlite.py:174-183 | the mapping lists, in increasing order, exactly the columns from 1 on whose text names a month, each with its month |
| SqliteParse.MonthMapping | src/etl/excel_to_sqlite.py:174-183 | the loop builds that mapping |
| SqliteParse.SqlCellAmount | src/etl/excel_to_sqlite.py:225-237 | a cell that gives an amount gives a non-zero one |
| SqliteParse.AmountAt | src/etl/excel_to_sqlite.py:222-256 | a column the row does not reach gives nothing; otherwise the cell's amount |
| CompareImports.SqlAmountDropsZeros | src/etl/excel_to_sqlite.py:229-235 | the SQLite import converts a cell like the Firebase import and then drops every zero |
| CompareImports.TextZeroDiffers | src/etl/excel_to_firebase.py:298 | the text "0" is stored by the Firebase import and dropped by the SQLite import |
| SqliteEtl.SqliteDB.InitDatabase | src/models/database.py:170-188 | both categories exist afterwards, each created only when missing |
| SqliteEtl.ResolveStable | src/etl/excel_to_sqlite.py:103-115 | a label that resolves to an account keeps it while labels and mappings are only added |
| SqliteEtl.GetOrCreateAccount | src/etl/excel_to_sqlite.py:100-148 | a label that resolves returns its account and changes nothing; otherwise one account named after the label and one mapping with confidence 0.8 are added; afterwards the label resolves to the returned account, so a second call creates nothing |
| SqliteEtl.AddAccount | src/etl/excel_to_sqlite.py:117-148 | the category, the account with the import note and the mapping of a label that has no mapping yet |
| SqliteEtl.CategoryFor | src/etl/excel_to_sqlite.py:118-127 | the returned category is named by the classification of the label |
| SqliteEtl.GetOrCreateCompany | src/etl/excel_to_sqlite.py:90-98 | the first company with the name, or exactly one new one; a second company with an existing name is never created |
| SqliteEtl.MonthCellsMonths | src/etl/excel_to_sqlite.py:222-246 | every stored month comes from the month mapping |
| SqliteEtl.MonthCellsNonZero | src/etl/excel_to_sqlite.py:233-235 | no stored amount is zero |
| SqliteEtl.HeaderMonthsInRange | src/etl/excel_to_sqlite.py:178-183 | every mapped month is from 1 to 12 |
| SqliteEtl.SheetFactsWellFormed | src/etl/excel_to_sqlite.py:205-251 | every fact of an accepted sheet has an account label that is not skipped, a month from 1 to 12 and a non-zero amount |
| SqliteEtl.PlanSheet | src/etl/excel_to_sqlite.py:155-172 | an accepted sheet has a company, a non-zero year and a header row |
| SqliteEtl.StoreMonthValues | src/etl/excel_to_sqlite.py:222-256 | the month loop adds, in mapping order, one "faktiskt" value per mapped cell with a non-zero amount |
| SqliteEtl.ProcessLabelledRow | src/etl/excel_to_sqlite.py:207-256 | a skipped label writes nothing; otherwise the row's values are stored under the account its label resolves to |
| SqliteEtl.ProcessRows | src/etl/excel_to_sqlite.py:205-261 | after the row loop the values added store exactly the sheet's facts, in order |
| SqliteEtl.CheckSheet | src/etl/excel_to_sqlite.py:154-172 | the checks in order settle the sheet's plan |
| SqliteEtl.WriteSheet | src/etl/excel_to_sqlite.py:187-263 | one dataset named after the sheet is added under the company, and its values store the sheet's facts |
| SqliteEtl.ProcessExcelSheet | src/etl/excel_to_sqlite.py:150-265 | the result is true exactly when the sheet passes its checks; a refused sheet writes nothing |
| SqliteEtl.CountWherePositive | src/etl/excel_to_sqlite.py:301 | the count is positive exactly when some sheet is imported |
| SqliteEtl.RunEtl | src/etl/excel_to_sqlite.py:267-301 | the run succeeds exactly when the workbook exists and some sheet is imported; blank sheets are passed over and not counted; each imported sheet adds one dataset |
| Helpers.SortedYears | utils_firebase_helpers.py:34 | the elements of the set, strictly ascending |
| Helpers.YearsForCompany | utils_firebase_helpers.py:25-34 | a strictly ascending, duplicate-free list of exactly the years of the company's datasets |
| Helpers.TargetDataset | utils_firebase_helpers.py:44-49 | the first dataset of the company with the year, in key order; none exactly when the company has no dataset of that year |
| Helpers.FinancialRowsFromValues | utils_firebase_helpers.py:62-78 | every row comes from a value of the requested type with its month and amount; no rows exactly when no value has that type |
| Helpers.FinancialData | utils_firebase_helpers.py:36-80 | no rows without a dataset of the year; otherwise the rows of the first such dataset's values of the requested type |
| Helpers.EmptySummaryIsZeroBuckets | utils_firebase_helpers.py:101-113 | the summary without a dataset is that of twelve zero buckets on each side |
| Helpers.SummaryBalances | utils_firebase_helpers.py:155-167 | each month's result is revenue less expense, and the total result is total revenue less total expense |
| Helpers.BucketsCoverSide | utils_firebase_helpers.py:132-149 | the twelve buckets of a side add up to the amount of every value that lands in that side |
| Helpers.AddToBucket | utils_firebase_helpers.py:135-149 | one pass adds an actual value to the revenue bucket exactly when its account is in the revenue category, else to the expense bucket when in the expense category; a month outside 1..12 raises |
| Helpers.MonthlySummary | utils_firebase_helpers.py:87-167 | no dataset gives the zero summary; otherwise the summary of the buckets, or none when a value lands under a month outside 1..12 |
| Helpers.YtdSeries | utils_firebase_helpers.py:261-275 | the year-to-date series are prefix sums, each result is revenue less expense, and the last result is the total |
| Helpers.TotalsAreSums | utils_firebase_helpers.py:350-367 | the totals hold one entry per account name that received an actual value of the category, with the sum of those amounts |
| Helpers.SortedByMagnitude | utils_firebase_helpers.py:376 | a permutation ordered by non-increasing absolute total |
| Helpers.HeadLength | utils_firebase_helpers.py:377 | `head(limit)` keeps at most as many rows as there are |
| Helpers.HeadIsLargest | utils_firebase_helpers.py:376-377 | no row left out of the head is larger in magnitude than a row kept |
| Helpers.HeadIsTop | utils_firebase_helpers.py:375-377 | the head of any ordering by magnitude is a top selection of the totals |
| Helpers.AccountTotals | utils_firebase_helpers.py:351-367 | the loop builds the totals in first-seen order |
| Helpers.TopAccounts | utils_firebase_helpers.py:316-379 | no rows without a dataset or an unknown category; otherwise at most `limit` rows ordered by non-increasing magnitude, each the sum of the actual amounts of one account name of the category |
| ExcelView.Distinct | pages_excel_view.py:205 | `drop_duplicates()` keeps every element that occurs, each once |
| ExcelView.NameMonthSumAbsent | pages_excel_view.py:223-224 | with no actual row of that name and month the cell is 0 |
| ExcelView.MonthTotal | pages_excel_view.py:221-224 | the masked sum over the actual rows equals the sum of the amounts of that name and month |
| ExcelView.CreateExcelTable | pages_excel_view.py:196-229 | one row per distinct (name, category, account, category id), each month the sum of the actual amounts of that name and month (0 when there are none) |
| ExcelView.TableCoversAccounts | pages_excel_view.py:204-207 | every account of the actual values has exactly one row; no actual values give no rows |
| ExcelView.ScanStaysFailed | pages_excel_view.py:93 | once a comparison with a missing timestamp has raised, the result is empty |
| ExcelView.LatestIsGreatest | pages_excel_view.py:88-95 | when every budget of the year has a timestamp, a budget is chosen exactly when one of the year exists, its timestamp is the greatest, and on ties the first wins |
| ExcelView.LatestBudget | pages_excel_view.py:85-98 | the loop picks the budget of the scan, or none when the comparison raised |
| ExcelView.ValueRowsAreValues | pages_excel_view.py:114-133 | a row is built exactly from a stored value of the budget |
| ExcelView.BudgetData | pages_excel_view.py:76-149 | the rows of the values of the chosen budget; no rows when none is chosen or the comparison raised |
| ExcelView.ExistingIsLastRow | pages_excel_view.py:282-285 | a cell has an existing amount exactly when some budget row names it, and the amount is that of the last such row |
| ExcelView.ExistingBudget | pages_excel_view.py:282-285 | the loop builds that map |
| ExcelView.MonthMapFor | pages_excel_view.py:291-300 | exactly the months 1..12, each the field's value when present (0.0 when not convertible), else the existing amount, else 0.0 |
| ExcelView.LastCategoryFound | pages_excel_view.py:287-301 | an account's category is found exactly when the account occurs among the distinct accounts |
| ExcelView.CollectBudgetUpdates | pages_excel_view.py:274-302 | exactly the accounts of the actual values get an entry, and each entry is the month map of its last category |
| ExcelView.DiffRow | pages_excel_view.py:522-528 | one merged row adds exactly its changed months and leaves other accounts alone |
| ExcelView.RowDiffFrame | pages_excel_view.py:528 | changing another account's entry leaves this account's diff as it was |
| ExcelView.DiffBudgetUpdates | pages_excel_view.py:505-529 | exactly the cells whose edited value differs by more than 1e-9 from the original (a missing side read as 0.0) are reported, with the edited value and a month from 1 to 12; identical grids give no updates |
| ExcelView.CellsOfAdd | pages_excel_view.py:257-262 | saving one more account adds as many cell writes as it has months |
| ExcelView.MonthStep | pages_excel_view.py:258-262 | one upsert adds its month to those that read back, and leaves other cells as before |
| ExcelView.SaveMonths | pages_excel_view.py:258-262 | every month of the account reads back its amount, the count grows by the number of months, and no other cell changes |
| ExcelView.SaveCells | pages_excel_view.py:256-266 | every cell of the updates reads back, the count equals the number of cells, and no other cell changes |
| ExcelView.SaveBudget | pages_excel_view.py:231-272 | the first budget of the year is reused, or "Budget <year>" is pushed; the saved count equals the number of cells written; every cell written reads back its amount and every other cell reads as before |

## Left out

- The Streamlit pages, widgets, messages and all printing/logging are not modelled. They have no effect on the stored data.
- Reading the workbook (`pd.ExcelFile`, `pd.read_excel`) is a parameter. A sheet arrives as a grid of cells, and "the file exists" as a boolean.
- `datetime.now()` is a `now` parameter. Timestamps other than those of budgets are not stored in the model.
- Floats are exact reals, so rounding is not modelled. `float()` of text covers the decimal grammar (sign, digits, one point, surrounding whitespace) and not exponents, "inf"/"nan" or underscores.
- Cells.NumText: `str()` of a float is modelled in positional notation with at most 16 fractional digits. Python's shortest round-trip digits and its exponent form (floats from 1e16 up or below 1e-4, "1e+16") are not modelled. Integral cells that pandas hands over as int are the separate `Int` case and print without a point. The text is used only on the first column, where it decides whether a number can be a month token or an account label.
- `upper()`/`lower()` are modelled on the Latin-1 range, and not completely there: `ß`, `ÿ` and `µ` are kept by `upper()`, where Python gives "SS", "Ÿ" and "Μ", and `ª` and `º` do not count as lower-case letters, where Python's `islower()` says they do. A title such as "Straße 2022" therefore parses differently (Python upper-cases it to "STRASSE 2022"). Characters outside Latin-1 are kept as they are.
- The `\d` of both sheet-title patterns, `(\d{4})$` in the Firebase import and `\d{4}` in the SQLite import, is modelled as the ASCII digits. Python's `\d` also matches other Unicode decimal digits (a title ending in "٢٠٢٢" gives 2022 there), and the model refuses such titles.
- The final ordering of the frames in `get_financial_data` and `get_budget_data` (by category, account name and month) is not modelled. The account and category name columns of the budget rows are not modelled either. The rows are returned in key order.
- `get_financial_data_with_categories` (the loader of the actual values the budget page shows) is not part of this model. Its rows are an input to the table and the collection.
- The session state of the budget page is a map from field keys to the value read, with none standing for a value that does not convert.
- ExcelView.DiffBudgetUpdates: the grids are maps keyed by account id, so a grid with a repeated account id (which the outer merge would multiply) is not modelled. `pd.to_numeric` on text is approximated by the decimal grammar above.
- ExcelView.SaveBudget: `int()`, `str()` and `float()` on ids, months and amounts are identities here. The per-cell `try/except` is not modelled, because no call in the model raises. The saved count is therefore the number of cells.
- ExcelView.CollectBudgetUpdates: `int()` on the account ids and months of the budget rows and of the actual rows is an identity here, since keys are natural numbers. Firebase push keys are strings such as "-N…", on which `int()` raises `ValueError`; that error path is not modelled.
- ExcelView.LatestIsGreatest: it states the choice only when every budget of the year carries a timestamp. When one does not, the comparison raises and the page shows nothing; `ScanStaysFailed` and `BudgetData` state that case.
- Helpers.MonthlySummary: a value whose month is outside 1..12 raises a `KeyError` in the source. The model returns none instead of modelling the exception.
- Helpers.SortedByMagnitude: pandas' order among rows of equal magnitude is not modelled. Any order by non-increasing magnitude is accepted (`HeadIsTop`).
- Store.FirebaseDB.UpdateSeasonalityValue: the read-back property is proved for budget values (`UpsertReadsBack`) and not repeated for seasonality values, whose upsert has the same shape.
- SqliteEtl: the SQLite session, commits, row refreshes and the ORM's validation are not modelled. Tables are keyed collections whose ids grow, and `.first()` is the lowest id. Exceptions inside the row and cell loops are modelled only where a column lies past the row's end.
- SqliteEtl.ProcessExcelSheet: the header test on the numpy text of a row is abstracted as "the text of the cells after the first mentions both jan and feb".
- SqliteEtl.GetOrCreateAccount: it assumes that every mapping names a raw label already handed out (the database's foreign key).
- Authentication, database credentials and connection setup, the chart figures, the seasonal statistics and the other pages are not part of this model.
