# Personal finance tracker: analytics and bookkeeping, in Dafny

This project models the part of the browser-based personal finance tracker
(`script.js`) that computes with the user's transactions. A transaction is
an income or an expense with a positive amount, a category, a description
and an ISO `YYYY-MM-DD` date. The model covers four parts:

- **The analysis engine.** `performComprehensiveAnalysis` swaps the
  analysed list into the global transaction list and runs the analyzers in
  order over it. The analyzers compute:
  - spending patterns: total, average per day, peak weekday and peak
    category;
  - the waste classification: a first-match decision list;
  - savings opportunities: categories over 200 and entertainment
    subscriptions;
  - monthly trends;
  - category totals with the top five.

  The recommendations and the alerts are then derived from those results.
  At the end the engine restores the original list.
- **The monthly buckets.** `monthlyData` maps a month key to a bucket
  holding its transactions, its income and expense totals, and an
  expense-only category map. `addMonthlyData` appends a batch and rebuilds
  the bucket (`recalculateMonthlyTotals`). The dashboard helpers read the
  buckets: the most recent month, the six-month trend, the yearly
  breakdown, the expense insight, the balance and the category totals.
- **CSV ingestion.** It has four steps:
  - the quote-toggling line splitter;
  - the ordered row validator, which reports the first failure;
  - the `DD-MM-YYYY` to `YYYY-MM-DD` rewrite;
  - the import of a previewed batch into the month of its first row.
- **Formatting.** `formatCategory` turns `snake_case` categories into
  title case.

The global state of the page (`transactions` and `monthlyData`) is the class
`Store.FinanceStore`. Its methods change it in place, just as the source
does. The analyzers build fresh objects, so they are functions over
sequences. JavaScript objects used as dictionaries are association lists
kept in insertion order. This is the order `Object.keys` and
`Object.entries` give for non-numeric keys. Weekday keys are numeric, so
they iterate in ascending order. Amounts are exact reals. The parts of the
date library the source uses (`Date.now`, `getDay`) are parameters of the
model (a `Clock`). So is `parseFloat`.

Modules:

| Module | Contents |
|---|---|
| `Basics` | Option and Result |
| `Text` | ASCII lower-casing, trimming, `split`/`join` on one character, the digits of a number |
| `Ledger` | the transaction record, sums and filters |
| `Tallies` | per-key totals in insertion order, the stable descending sort, the peak reduction |
| `Ordering` | ascending key sort, the last six, the greatest key |
| `Patterns`, `Waste`, `Savings`, `Advice`, `Trends`, `Analysis` | the analysis engine |
| `Csv` | CSV ingestion |
| `Dashboard` | balance, category formatting, the expense insight |
| `Store` | the monthly buckets and the page state |

## Model

| member | source | states |
|---|---|---|
| Ledger.Sum | script.js:1862 | A sum of transaction amounts is non-negative, and positive exactly when the list is non-empty. |
| Ledger.SumComplement | script.js:1402-1410 | Splitting a list by a predicate and its negation splits its sum: income plus non-income is the whole total. |
| Tallies.Bump | script.js:1948-1950 | Adding an amount to a key raises exactly that key's entry by the amount and the grand total by the amount. A new key is appended at the end, as a fresh property is in a JavaScript object. |
| Tallies.CategoryTotalsSpec | script.js:1332-1343 | `getCategoryTotals` has one entry per category, in order of first appearance, holding that category's total over all rows, income included. The entries add up to the total of all transactions. |
| Tallies.PeakIndex | script.js:1877-1878 | The `reduce` that keeps `a` only when strictly greater picks an entry of maximum amount, and every later entry is strictly smaller: ties go to the later key. |
| Tallies.SortDesc | script.js:2119-2121 | The descending sort by amount has the same length as its input and is descending. |
| Tallies.SortDescStable | script.js:2119-2121 | The sort is stable: the entries with any one amount keep their original relative order. |
| Tallies.SortDescHead | script.js:924-925 | The first entry after the sort is the first entry of maximum amount in insertion order. |
| Tallies.TopN | script.js:2119-2125 | `slice(0, 5)` of the sorted entries holds min(n, length) entries and is a prefix of the sorted list. |
| Tallies.TopNSpec | script.js:2119-2125 | The top entries are descending. Together with the rest of the sorted list they are a permutation of the input, and no entry left out is larger than one kept. |
| Ordering.SortAsc | script.js:2094 | Sorting entries with distinct keys ascending yields an ascending permutation of them. |
| Ordering.LastSix | script.js:897 | `slice(-6)` keeps min(6, length) elements, and they are the suffix of the list. |
| Ordering.LastSixKeepsLatest | script.js:895-897 | Of an ascending list, the last six stay ascending, and every element dropped comes before every element kept. |
| Ordering.Greatest | script.js:787-795 | The last key after sorting is absent exactly when there are no keys. Otherwise it is one of the keys and every other key is smaller. |
| Patterns.DayEntries | script.js:1869-1873 | The per-weekday totals have an entry for each weekday with spending, in ascending weekday order (integer keys of a JavaScript object), holding that day's positive total. |
| Patterns.DayEntriesPeak | script.js:1876-1878 | The peak reduction over the weekday entries gives a day whose total no weekday exceeds, and every later weekday has a strictly smaller total. |
| Patterns.PeakDay | script.js:1876-1879 | There is a peak weekday exactly when there are expenses, and it is a maximum whose ties go to the higher weekday index. |
| Patterns.PeakCategory | script.js:1881-1889 | There is a peak category exactly when there are expenses. It is a category of the expenses with the largest total. Of several such it is the one inserted last: every category inserted after it has a strictly smaller total. |
| Patterns.LastPeakCategoryUnique | script.js:1881-1889 | At most one category is a peak category with no later-inserted category of equal total, so the tie-break picks one category. |
| Patterns.DaysCovered | script.js:1865 | The divisor is `Math.max(30, days)`: it is one of 30 and the number of days since the first expense in list order, and at least both. |
| Patterns.AverageBound | script.js:1865-1866 | Dividing a non-negative total by at least 30 days gives a non-negative average that is at most a thirtieth of the total, and positive when the total is. |
| Patterns.AnalyzeSpendingPatterns | script.js:1850-1892 | `totalSpent` is the sum of the expense rows and is non-negative. With no expenses the average is 0 and the peak day and category are empty. Otherwise the average is the total over the days covered since the first expense in list order, positive and at most a thirtieth of the total. The peak day names a peak weekday, ties going to the higher weekday index. The peak category is the last-inserted category of largest total. |
| Waste.Classify | script.js:1906-1926 | The decision list in its order: entertainment over 50 is high entertainment. Otherwise shopping under 100 is an impulse purchase. Otherwise food over 30 is high food spending. The category is compared lower-cased. |
| Waste.AnalyzeWastefulSpending | script.js:1894-1935 | Each list is exactly the expenses meeting its rule, in list order and once per row, so two equal rows are both listed. The rules are entertainment over 50, shopping under 100 and food over 30, on the lower-cased category. A transaction is in a list exactly when it is an expense matching that list's rule, so income rows are never flagged. `totalWaste` is the sum of the three lists and lies between 0 and the total of expenses. `wastePercentage` lies in [0, 100] and is 0 when there are no expenses. |
| Waste.WastePartition | script.js:1906-1926 | The three lists together are a sub-multiset of the expenses: no expense lands in more than one list. |
| Waste.DisjointFilters | script.js:1906-1926 | Filtering by three mutually exclusive rules takes disjoint sub-multisets whose sums add up to at most the whole. |
| Savings.Above | script.js:1952-1953 | Keeping the totals over a limit keeps exactly the entries whose amount exceeds it, and no more entries than there were. |
| Savings.AboveCategories | script.js:1948-1962 | The categories over the limit are distinct. They are exactly the expense categories whose total exceeds the limit, each with its total. |
| Savings.ReductionSavingsFifth | script.js:1952-1962 | The savings of the category reductions add up to a fifth of the reduced categories' totals. |
| Savings.AuditSavingsSum | script.js:1968-1974 | The savings of the subscription audit add up to the audited amounts. |
| Savings.FindSavingsOpportunities | script.js:1937-1981 | `totalPotentialSavings` is the reductions' savings plus the audit's, with no deduplication. In terms of the input it is a fifth of the totals of the categories over 200 plus the sum of the audited subscriptions. |
| Savings.CategoryReductionsSpec | script.js:1945-1962 | There is exactly one reduction per expense category whose total exceeds 200, each holding that total and a fifth of it as savings. |
| Savings.SubscriptionAuditSpec | script.js:1964-1974 | The audit lists, in order and once per row, exactly the expenses whose category is exactly `entertainment` (case-sensitive) and whose amount exceeds 50. Each entry saves its amount. |
| Advice.GenerateRecommendations | script.js:1983-2026 | There are 1 to 4 recommendations, and the last one is always Automate Savings (low impact, 200). Each item carries the savings figure of its kind: half the waste, the total potential savings, or the daily average × 0.2 × 30. |
| Advice.RecommendationsSpec | script.js:1988-2024 | The kinds keep their fixed order. Each conditional item is present exactly when its own condition holds: waste over 15 %, savings over 100, average over 50. |
| Advice.CategoryAlerts | script.js:2057-2066 | There is one medium-severity alert per category over the limit, in order, naming it with its total. |
| Advice.GenerateSpendingAlerts | script.js:2029-2069 | The number of alerts is [average over 100] + [waste over 20 %] + the number of expense categories over 500. The order is daily, then waste, then categories. The first two are high severity and the category alerts medium. The daily alert and the waste alert are each present exactly when their condition holds. |
| Advice.CategoryAlertsSpec | script.js:2052-2066 | There is a category alert for category c with amount a exactly when c is an expense category, a is its total and a exceeds 500. |
| Advice.CategoryAlertsDistinct | script.js:2052-2066 | No two category alerts name the same category. |
| Trends.Record | script.js:2081-2092 | Recording a row in the per-month totals raises that month's income when the row is income and its other total otherwise, and opens the month at the end when it is new. |
| Trends.MonthTotalsSpec | script.js:2079-2092 | The per-month totals have one entry per month of the transactions, holding that month's income and the sum of its non-income rows. |
| Trends.SortedMonthsSpec | script.js:2094 | After the sort, the months present are exactly the months of the transactions, each with its income and non-income sums. |
| Trends.Points | script.js:2094-2098 | The three series have one point per month, in the same order. Net worth is income minus expenses. |
| Trends.TrendsSpec | script.js:2071-2101 | The three series of `analyzeTrends` have the same length and are strictly ascending by month. Their months are exactly the months of the transactions. Each point holds that month's income, its non-income rows, and their difference. |
| Trends.MonthlyTrendDataSpec | script.js:878-903 | The trend window holds min(6, number of months) months in ascending order. Each is a month of the input, with its income and its non-income sum. |
| Trends.MonthlyTrendDataLatest | script.js:895-897 | Every month of the input that is left out of the window comes before every month in it. |
| Analysis.AnalyzeCategories | script.js:2103-2127 | The category maps are the per-category totals of the expenses and of the income. Each top list holds min(5, number of categories) entries in descending order, each a category with its total, and no category left out has a larger total than one kept. |
| Analysis.TopCategories | script.js:2119-2125 | The top categories are descending by total. Each holds a category's total. No category left out has a larger total than one kept. |
| Analysis.AlertsImplyRecommendations | script.js:1988-2050 | The thresholds nest. A waste alert (over 20 %) comes with the waste recommendation (over 15 %). A daily alert (over 100) comes with the daily recommendation (over 50) and needs more than 3000 of expenses. |
| Analysis.NoExpensesNoAdvice | script.js:1983-2069 | With no expenses there are no alerts, and Automate Savings is the only recommendation. |
| Analysis.CaseSensitiveAudit | script.js:1906-1966 | An expense of 60 filed under `Entertainment` counts as subscription waste yet is never audited, because only the waste rules lower-case the category. |
| Analysis.SavingsDoubleCount | script.js:1976-1978 | One entertainment expense of 250 counts once as a category over 200 (50) and once as a subscription (250), so the total is 300. |
| Csv.ParseCsvLine | script.js:1631-1651 | The character loop returns exactly the fields of the quote-toggling split of the line. |
| Csv.FieldCount | script.js:1631-1651 | A line splits into one more field than it has commas outside quotes. |
| Csv.NoQuoteInFields | script.js:1639-1640 | No field contains a double quote. |
| Csv.QuoteFreeSplit | script.js:1631-1651 | A line without quote characters splits exactly at its commas. |
| Csv.ParseKind | script.js:1662-1663 | The type is accepted exactly when its trimmed, lower-cased text is `income` or `expense`, and it gives the matching kind. |
| Csv.ValidateCsvRow | script.js:1653-1693 | Each error is reported exactly when every earlier check passed and its own check fails. The checks are the `DD-MM-YYYY` date, then the type, then a positive amount, then a non-empty category, then a non-empty description. The row is accepted exactly when all pass, and an error carries the row number. |
| Csv.DmyToIso | script.js:2494-2495 | The rewrite puts the year first, then the month, then the day. |
| Csv.DmyToIsoRoundTrip | script.js:2494-2495 | Reading the rewritten date back as day-month-year gives the original text. |
| Csv.ParseRow | script.js:1596-1616 | A line without five columns is a column-count error. An accepted row passed validation. It carries the trimmed, lower-cased category, the trimmed description, the ISO date, the parsed amount and the parsed type, and its category and description are non-empty. |
| Csv.Gather | script.js:1592-1617 | Every non-blank line yields exactly one row or one error. |
| Csv.GatherFrom | script.js:1592-1617 | Every row and every error comes from parsing some line under its row number. |
| Csv.ParseLinesErrors | script.js:1598-1616 | The errors carry row numbers between 1 and the number of lines, in strictly increasing order. |
| Csv.ParseCsvText | script.js:1581-1629 | The loop reaches the outcome defined on the text: an empty file, no valid rows (one error per non-blank line), or a preview whose rows and errors together number the non-blank lines. |
| Dashboard.BalanceSpec | script.js:1298-1302 | The balance is the income total minus the total of every other row. |
| Dashboard.FormatCategory | script.js:1360-1365 | An empty category is `Uncategorized`. Otherwise the result is the category with underscores turned to spaces and the first letter of each word upper-cased. |
| Dashboard.TitledSplit | script.js:1362-1364 | Splitting on `_`, capitalising each word and joining with spaces equals the character-by-character title-casing. |
| Dashboard.ToneOf | script.js:1006-1014 | The insight is Diversify exactly when the top share exceeds 40 %, and Balanced exactly when it lies in (25 %, 40 %]. A zero total gives no share: Diversify when the top amount is positive. |
| Dashboard.GenerateExpenseInsights | script.js:1002-1015 | The insight names the first category of largest total, formatted. Its tone is that category's share, and the share is absent exactly when the total is zero. |
| Dashboard.InsightSpread | script.js:1002-1015 | With positive amounts adding up to the total: a single category always gives Diversify, Balanced needs at least 3 categories, and WellDistributed needs at least 4. |
| Store.RebuiltIdempotent | script.js:1396-1411 | Rebuilding a bucket gives a consistent bucket, and rebuilding it twice gives the same bucket as once. |
| Store.BucketTotals | script.js:1396-1411 | In a consistent bucket the totals are non-negative and add up to the sum of its transactions. The category map has distinct keys: exactly the categories of the non-income rows, each with its total. The categories add up to the expense total and all are positive. |
| Store.MonthKeyOfDate | script.js:1375 | For a date whose year does not start with 0, the key built from its numeric year and month (month zero-padded to two digits) is the date's `YYYY-MM` prefix. |
| Store.LocalYearMonth | script.js:1777-1779 | Reading a UTC-midnight date in a local zone gives a month from 1 to 12. It is the date's own year and month whenever the zone is not west of UTC or the day is not the first. West of UTC the first of a month gives the month before, across a year end too. |
| Store.LocalMonthMisfiles | script.js:1777-1779 | A batch dated 2024-03-01, read five hours west of UTC, is filed under 2024-02. |
| Store.ImportYearMonth | script.js:1776-1779 | The year and month taken from the first row give back that row's own month key. |
| Store.AppendedSpec | script.js:1374-1389 | After the append, the bucket is consistent and holds its old transactions (none if new) followed by the batch. It keeps its upload date or gets `now`. Its income and expense totals grow by the batch's income and non-income sums. |
| Store.TrendInputAsWritten | script.js:880 | The trend input has the global rows plus every bucket's rows. |
| Store.TrendDoubleCount | script.js:878-893 | One imported expense of 60, which is both in `transactions` and in its bucket, shows as 120 in the trend. |
| Store.TrendCountsOnce | script.js:878-903 | Over `transactions` alone the same expense shows as 60. |
| Store.YearKeys | script.js:1094-1113 | The kept keys are ascending, and are exactly the month keys that start with the year's digits. |
| Store.YearlyRowsSpec | script.js:1089-1126 | The yearly rows are ascending by month. Each row's month is a key of the year with its expense total and its share of the year's total (0 when that total is 0). Every month of the year with expenses has a row. |
| Store.YearlyPercentages | script.js:1104-1125 | When there are rows, their percentages add up to 100. |
| Store.FinanceStore.constructor | script.js:1374-1411 | The page starts with no transactions and no buckets, which is a well-formed state. |
| Store.FinanceStore.RecalculateMonthlyTotals | script.js:1396-1411 | The named bucket is replaced by its rebuilt form: income from the income rows, every other row counted as an expense. Nothing else changes. |
| Store.FinanceStore.AddMonthlyData | script.js:1374-1394 | The key is `YYYY-MM`. Its bucket is created if missing, the batch is appended and the bucket is rebuilt. The key list grows only for a new key. Other buckets are unchanged. The batch is appended to `transactions`. The store stays well formed. |
| Store.FinanceStore.AppendToMonth | script.js:1377-1391 | The month's bucket becomes the appended bucket: opened if missing (its key then listed last), the batch pushed onto it, its totals rebuilt. Other buckets are unchanged and the batch is appended to `transactions`. |
| Store.FinanceStore.GetMonthlyData | script.js:1413-1416 | The lookup gives a bucket exactly when the key is present, and that bucket is consistent. |
| Store.FinanceStore.MostRecentMonthData | script.js:787-795 | The result is null exactly when there are no buckets. Otherwise it is the consistent bucket of a key greater than every other key. |
| Store.FinanceStore.ExpenseInsight | script.js:905-927 | An insight is produced exactly when a most recent bucket exists and has expense categories. |
| Store.FinanceStore.ExpenseInsightSpec | script.js:1002-1015 | On a well-formed store the insight always has a share. A single category gives Diversify, Balanced needs three categories and WellDistributed four. |
| Store.FinanceStore.YearlyData | script.js:1089-1126 | This states `getYearlyData` over the store's buckets: ascending months of the year, each with its expense total and share, complete, and adding up to 100 %. |
| Store.FinanceStore.MonthlyTrend | script.js:878-903 | Corrected version (see Findings): the trend counts each row once, over `transactions` alone. It is ascending and holds min(6, number of months) months. Each is a month of the data with its income and non-income sums. |
| Store.FinanceStore.MonthlyTrendAsWritten | script.js:878-903 | As written: the trend reads `transactions` followed by every bucket's rows. It is ascending and holds min(6, number of months) months. Each month's income and non-income figures are those of `transactions` plus those of the buckets. |
| Store.FinanceStore.PerformComprehensiveAnalysis | script.js:1830-1848 | The result is the analysis of the given list; the method may write only the transaction list (so the monthly buckets stay as they were), and that list is restored to what it was before. |
| Store.FinanceStore.ImportCsvData | script.js:1759-1799 | Corrected version (see Findings): the month comes from the digits of the first row's date. An empty batch throws and is caught, leaving everything unchanged. Otherwise the batch is added under its first row's month, and that bucket then holds its earlier transactions followed by the batch. |
| Store.FinanceStore.ImportCsvDataAsWritten | script.js:1759-1799 | As written: the month and year come from the first row's date read in the browser's zone. An empty batch leaves everything unchanged. Otherwise the batch is added under that local month, which west of UTC is the month before for a first-of-month date. |

## Left out

- DOM rendering, charts, notifications, modals and the preview table are presentation only.
- `localStorage` persistence (`saveData`), export and the AI/network calls are I/O.
- `Date.now`, `getDay` and the days between two dates are `Clock` parameters.
- Dates whose digits name no real day are not modelled as the source treats them. The validator checks only the `DD-MM-YYYY` digit pattern (script.js:1654-1655), so a row dated `45-13-2024` is accepted. `new Date` then gives an Invalid Date: `importCSVData` files the batch under `NaN-NaN` (script.js:1375, 1777-1779), and `toISOString()` throws a RangeError in `getMonthlyTrendData` and `analyzeTrends` (script.js:883, 2082). The model files such a row by the digits of its date.
- Store.FinanceStore.ImportCsvDataAsWritten: requires the first row's date to name a month from 01 to 12 and a day from 01, because the source turns other dates into `NaN`.
- Dates with a year below 1000 or a leading zero are left out. `MonthKeyOfDate` and the contracts of `ImportCsvData` that use it assume the year's first digit is not 0.
- `parseFloat` is a parameter, with `None` for `NaN`.
- `Text.ToLower` and `Text.Trim` are ASCII-only. JavaScript's full Unicode case mapping and white-space set are not modelled.
- Floating point is not modelled: amounts are exact reals, so rounding, `Infinity` and `NaN` do not arise. `toFixed`, `Intl.NumberFormat` and `toLocaleDateString` are formatting only.
- Store.YearlyRows: the yearly total is summed in ascending key order rather than in insertion order. The two are equal over exact reals.
- `Object.keys` moves integer-like keys before other keys in ascending order. Category keys are assumed not to be integer-like, so categories keep insertion order.
- Category names that are properties of `Object.prototype` are assumed absent. With `constructor`, `toString` or `valueOf`, `(m[c] || 0) + amount` starts from a function and concatenates strings. With `__proto__` the assignment is ignored (script.js:1335-1340, 1407-1408, 1883, 1948-1950).
- Display strings (alert titles, descriptions, recommendation text, month names from `monthNames`) become constructors or keys. A yearly row keeps its month key rather than the month's name, and the trend window keeps the key rather than the `toLocaleDateString` label.
- Transaction ids and timestamps (`Date.now() + Math.random()`) are non-deterministic and not modelled.
- The fields the analyzers leave empty or zero (`monthlyTrend`, `weeklyPattern`, `seasonalTrends`, `budgetOptimization`, `spendingGrowth`) are not modelled.
- The `!analysis` guards of the recommendations and alerts are not modelled, since the analysis object is always present.
- The month-over-month percentage change of `updateTrendAnalysis` (script.js:979-982) is not modelled. It divides by the previous month without a guard.
- CSV row numbers count non-blank lines, as `i + 1` does after the blank-line filter.
- The preview row and its later ISO rewrite at import are one step: `Csv.ParseRow` builds the ISO-dated transaction directly.
- `generateAIResponse`, `generateFallbackResponse`, `calculateMonthlyIncome` and `calculateMonthlyExpenses` are not modelled. They are canned text or read the current local month.
- `Store.MonthKeyFor` has no contract of its own. Its meaning is stated by `Store.MonthKeyOfDate` and `Store.ImportYearMonth`.

## Findings

| source | as written | input that shows it | evidently intended | confidence | as-written member | corrected member |
|---|---|---|---|---|---|---|
| script.js:1776-1779 | `new Date("YYYY-MM-DD")` parses the date as UTC midnight, but `getMonth()`/`getFullYear()` read local time, so west of UTC the first of a month is read as the previous month | a batch whose first row is 2024-03-01, imported at UTC−5, is filed under `2024-02` | the batch is filed under the month of its first row's date | not executed | Store.LocalMonthMisfiles | Store.ImportYearMonth |
| script.js:880 | the trend reads `transactions` plus every bucket's transactions, but `addMonthlyData` appends each imported row to both, so imported rows count twice | one imported expense of 60 in 2024-03 shows as 120 | each transaction counts once | not executed | Store.TrendDoubleCount | Store.TrendCountsOnce |
