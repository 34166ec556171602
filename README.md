# Budget tracker core, modelled in Dafny

A Google Apps Script budget tracker keeps a Transactions sheet, with one row
per expense, and a Settings sheet of name/value rows. This project models its
core:

- **Utils**: formatting amounts as currency (`formatCurrency`) and fractions
  as percentages (`formatPercent`), and reading a setting by name, as is or as
  a number (`getSetting`, `getSettingAsNumber`).
- **CurrencyService**: fetching exchange rates from a primary provider and
  falling back to a second one, caching them in the script cache, and the rate
  between two currency codes. It also models `updateExchangeRates`, the pass
  that fills in each transaction's base-currency amount from its local amount
  and currency.
- **BudgetTracker**: the total per category, the status of a category against
  the budget limit (OK / Warning / Over Budget), the summary sorted by
  category, and the categories at or over the alert threshold.
- **AlertService**: the alert e-mail for one category, the weekly summary
  e-mail, and the two passes that send them.

Modules:

| file | module | contents |
|---|---|---|
| `Strings.dfy` | `Strings` | `trim`, ASCII `toUpperCase`, digit strings, `Number(text)`, `parseFloat`, `String(n)`, joining and searching text |
| `Values.dfy` | `Values` | cells, rows, JavaScript truthiness, `String`/`Number` of a cell, `Math.round`-based rounding |
| `Utils.dfy` | `Utils` | currency and percent formatting with their readers, `getSetting`, `getSettingAsNumber` |
| `Ordering.dfy` | `Ordering` | the default order of `Array.prototype.sort` on names, and the sorted listing of a set of names |
| `CurrencyService.dfy` | `CurrencyService` | providers, cache, `getExchangeRate`, `updateExchangeRates` (class `RateService`) |
| `BudgetTracker.dfy` | `BudgetTracker` | totals, status, summary, alerts |
| `AlertService.dfy` | `AlertService` | mail channel (class `MailChannel`), alert and weekly texts, the send passes |

Numbers are exact reals. `Math.round` is `RoundHalfUp`, the nearest integer
with a half rounded up, and rounding to cents is `Round2`. The sheets are
values:

- The Settings sheet is `Option<seq<SettingRow>>`; None means the sheet does
  not exist.
- The Transactions sheet is an `array?<TxRow>`, null when the sheet does not
  exist. `updateExchangeRates` writes into that array in place.

The outside world enters as data:

- The rate providers' replies are a `Network` value.
- The script cache is a field of `RateService`, which also records every
  request sent.
- The mail service is a `MailChannel`. It records every send attempt and is
  given the set of attempt numbers at which sending throws.
- The spreadsheet URL is a parameter.

Each sheet-reading operation is a method proved against a specification
function (for example, `GetCategoryTotals` against `CategoryTotals`), and the
lemmas state what those functions promise.

## Model

| member | source | states |
|---|---|---|
| Strings.TrimIdempotent | src/Utils.js:68-70 | trimming an already trimmed text changes nothing |
| Strings.TrimIsTrimmed | src/Utils.js:68-70 | the trimmed text neither starts nor ends with white space |
| Strings.NormalizeIdempotent | src/CurrencyService.js:144-146 | trimming and upper-casing a currency code twice is doing it once |
| Strings.IntStrValue | src/Utils.js:23-25 | the decimal digits printed for a whole number read back as that number |
| Strings.ToNumberIntStr | src/BudgetTracker.js:41 | `Number` of the digits of a whole number is that number |
| Strings.ParseFloat | src/Utils.js:89-93 | `parseFloat`: skips leading white space, reads an optional sign, digits and an optional '.' with digits, and ignores whatever follows; NaN when no digit is read |
| Strings.ToNumber | src/BudgetTracker.js:41 | `Number` of text: the whole trimmed text must be such a decimal literal, and white space alone is 0 |
| Strings.ParseFloatLiteral | src/Utils.js:89-93 | `parseFloat` reads any decimal literal (optional sign, whole digits, optional point and fraction digits) as its value, whatever follows it that cannot continue the literal |
| Strings.ToNumberLiteral | src/BudgetTracker.js:41 | `Number` of any decimal literal is its value |
| Strings.ParseFloatRejects | src/Utils.js:93-94 | text that starts with no digit, sign or point is NaN to `parseFloat` |
| Strings.ScanDecimalNone | src/Utils.js:89-93 | no literal is scanned exactly when the text does not start with an optional sign and then a digit, or a point and a digit |
| Strings.ParseFloatNaN | src/Utils.js:89-93 | `parseFloat` is NaN exactly when the text past its leading white space does not start like a number |
| Strings.NumToStringWhole | src/Utils.js:88 | `String(n)` of a whole number is its digits |
| Strings.JoinContains | src/AlertService.js:46-52 | each piece of a joined text stands in it right after the pieces before it |
| Strings.JoinEnds | src/AlertService.js:46-52 | a joined text starts with its first piece and ends with its last |
| Values.Round2 | src/BudgetTracker.js:47 | rounding to the cent moves an amount by at most half a cent |
| Values.RoundHalfUpUnique | src/BudgetTracker.js:121 | `Math.round` gives the one integer within half of the value, a half rounded up |
| Values.Round2OfCents | src/BudgetTracker.js:96 | an amount in whole cents is left as it is |
| Values.Round2Idempotent | src/BudgetTracker.js:47 | rounding to the cent twice is rounding once |
| Utils.FormatCurrency | src/Utils.js:18-28 | `formatCurrency`: a non-number is 0; otherwise `FormatNumber` of the amount |
| Utils.FormatNumber | src/Utils.js:22-27 | '-' for a negative amount, the symbol, the whole units grouped by ',' in threes, '.', and the two cent digits of the magnitude |
| Utils.FormatCurrencyReadsBack | src/Utils.js:18-28 | the printed amount reads back as the amount rounded to the cent, with the sign of the unrounded amount |
| Utils.FormatNumberReadsBack | src/Utils.js:22-27 | the same, for a number |
| Utils.CurrencyDigitsReadBack | src/Utils.js:23-26 | symbol, grouped whole units, '.', two cent digits read back as cents / 100 |
| Utils.GroupReadsBack | src/Utils.js:25 | inserting ',' every three digits from the right loses no digit and the reader accepts the result |
| Utils.CentsAreRound2 | src/Utils.js:23 | `toFixed(2)` of the magnitude prints the magnitude rounded to the cent |
| Utils.FormatCurrencySign | src/Utils.js:22-27 | the text starts with '-' exactly for a negative amount, and the rest is the text of its magnitude |
| Utils.FormatCurrencyNonNumeric | src/Utils.js:19-21 | NaN prints as "$0.00" |
| Utils.CurrencySymbol | src/Utils.js:19 | an absent symbol is "$", any other is kept |
| Utils.TenthsTextReadsBack | src/Utils.js:51-52 | tenths printed with '%' read back to the same tenths, with a '.' exactly when not whole |
| Utils.FormatPercent | src/Utils.js:48-53 | `formatPercent`: NaN and negative fractions are "0%"; otherwise `Math.round(num * 1000)` tenths printed with '%' |
| Utils.FormatPercentReadsBack | src/Utils.js:48-53 | the percentage ends in '%', reads back as `Math.round(num * 1000)` tenths, and has a '.' exactly when not whole |
| Utils.FormatPercentInvalid | src/Utils.js:49-50 | NaN and negative fractions print "0%" |
| Utils.GetSetting | src/Utils.js:61-66 | the lookup fails exactly when the Settings sheet is absent |
| Utils.GetSettingMeaning | src/Utils.js:67-74 | the header row is skipped, the first row whose trimmed name equals the trimmed key gives the value, and null means no row has the name |
| Utils.FindSetting | src/Utils.js:69-74 | the loop over the Settings rows from a given row on, returning the value of the first row whose trimmed name is the trimmed key |
| Utils.FindSettingNone | src/Utils.js:69-74 | the search finds nothing exactly when no row from the start on has the name |
| Utils.FindSettingFirstMatch | src/Utils.js:69-72 | the search returns the value of the first matching row |
| Utils.GetSettingAsNumber | src/Utils.js:84-86 | the read fails exactly when the Settings sheet is absent |
| Utils.SettingNumber | src/Utils.js:85-95 | `getSettingAsNumber` on the setting's value: missing or empty gives the default; otherwise `TextNumber` of the trimmed text |
| Utils.TextNumber | src/Utils.js:88-94 | a text ending in '%' loses its first '%' and its `parseFloat` is divided by 100; other text is its `parseFloat`; NaN gives the default |
| Utils.SettingNumberDefaults | src/Utils.js:85-87 | a missing or empty value gives the default, and no default gives 0 |
| Utils.SettingNumberPercent | src/Utils.js:84-91 | a setting whose trimmed text is a decimal literal N, then any text that cannot continue it and holds no '%', then '%', reads as N / 100 ("12.5%", "80 %", "-5%") |
| Utils.TextNumberPercent | src/Utils.js:88-91 | the trimmed text: a decimal literal N, text that cannot continue it and holds no '%', then '%', gives N / 100 |
| Utils.TextNumberPlain | src/Utils.js:88-94 | a trimmed text with no '%' that starts with a decimal literal gives the literal's value |
| Utils.SettingNumberPlain | src/Utils.js:84-94 | a setting whose trimmed text starts with a decimal literal and holds no '%' reads as the literal's value ("0.75", "-3", "12abc") |
| Utils.SettingNumberFractionalPercent | src/Utils.js:88-91 | "12.5%" reads as 0.125 |
| Utils.SettingNumberFraction | src/Utils.js:87-94 | " 0.75 " reads as 0.75 |
| Utils.SettingNumberUnparsable | src/Utils.js:88-94 | every text that `parseFloat` cannot read gives the default: the trimmed text, less its first '%' when it ends in '%', does not start like a number past its leading white space |
| Utils.SettingNumberUnparsableExamples | src/Utils.js:88-94 | "+abc" and "%5" give the default |
| Utils.RemoveFirstPercent | src/Utils.js:90 | text with no '%' is unchanged |
| Ordering.LessTransitive | src/BudgetTracker.js:92 | the default sort order is transitive |
| Ordering.LessTotal | src/BudgetTracker.js:92 | any two different names are ordered one way or the other |
| Ordering.LessIrreflexive | src/BudgetTracker.js:92 | no name sorts before itself |
| Ordering.SortedKeys | src/BudgetTracker.js:92 | `Object.keys(totals).sort()` lists every category exactly once, strictly sorted |
| Ordering.StrictlySortedUnique | src/BudgetTracker.js:92 | there is only one strictly sorted listing of a set of names |
| CurrencyService.PrimaryRates | src/CurrencyService.js:27-45 | `fetchRatesFromPrimary_`: the reply's rates when it is 200 with result "success" and rates, otherwise nothing |
| CurrencyService.FallbackRates | src/CurrencyService.js:52-72 | `fetchRatesFromFallback_`: the reply's rates with the base set to 1 when it is 200 with rates, otherwise nothing |
| CurrencyService.FetchedRates | src/CurrencyService.js:79-87 | `fetchExchangeRates_`: the primary's rates, else the fallback's |
| CurrencyService.PrimaryRatesMeaning | src/CurrencyService.js:27-45 | the primary's rates are used exactly when it answers 200 with result "success" and sends rates |
| CurrencyService.FallbackRatesMeaning | src/CurrencyService.js:52-72 | the fallback's rates are used exactly when it answers 200 with rates; the base then rates 1 and other codes keep their rates |
| CurrencyService.FetchOrder | src/CurrencyService.js:79-87 | the primary is asked first; the fallback is asked, and its answer used, only when the primary failed; nothing comes back only when both fail |
| CurrencyService.CacheKey | src/CurrencyService.js:97 | the cache key is "exchange_rates_" followed by the base code |
| CurrencyService.Lookup | src/CurrencyService.js:94-103 | `getCachedRates_`: the cached entry under the base's key when it reads back as rates, otherwise a miss |
| CurrencyService.ResolveRates | src/CurrencyService.js:124-135 | `getExchangeRates_`: the cached rates on a hit; otherwise the fetched rates |
| CurrencyService.RequestsFor | src/CurrencyService.js:124-135 | the requests `getExchangeRates_` sends: none on a cache hit, otherwise those of the fetch |
| CurrencyService.CacheAfter | src/CurrencyService.js:124-135 | the cache after `getExchangeRates_`: unchanged on a hit or a failed fetch, otherwise holding the fetched rates when the cache accepts the write |
| CurrencyService.CacheHit | src/CurrencyService.js:124-129 | cached rates are returned with no request and no cache write |
| CurrencyService.UnreadableIsMiss | src/CurrencyService.js:94-103 | an entry that does not read back is a miss, so the providers are asked |
| CurrencyService.CacheMissStores | src/CurrencyService.js:110-117 | after a miss, fetched rates are stored for 21600 seconds and the next lookup is served from the cache with no request; a refused write changes nothing |
| CurrencyService.ExchangeRate | src/CurrencyService.js:143-155 | `getExchangeRate`: 1 for the same normalised code; otherwise the `to` entry of the `from` rates, or null |
| CurrencyService.ExchangeRateSameCode | src/CurrencyService.js:144-146 | the same code (after trim and upper-case) rates 1 with no request and no cache access |
| CurrencyService.ExchangeRateCaseInsensitive | src/CurrencyService.js:144-145 | codes are compared trimmed and upper-cased |
| CurrencyService.ExchangeRateLookup | src/CurrencyService.js:147-154 | for two codes the rate is the `to` entry of the `from` rates, and null when those rates or that entry are missing |
| CurrencyService.BaseCurrency | src/CurrencyService.js:162 | the base currency is unavailable exactly without a Settings sheet, and is never falsy: a missing or empty setting falls back to "USD" |
| CurrencyService.ActionFor | src/CurrencyService.js:181-185 | a row with a falsy local amount, an empty currency or a non-numeric amount is skipped |
| CurrencyService.ConvertRow | src/CurrencyService.js:181-199 | one round of the update loop: the row skipped, reported for a missing rate, or given its base-currency amount |
| CurrencyService.ConvertRows | src/CurrencyService.js:179-201 | the update loop over every data row, in order |
| CurrencyService.ConvertedAmountMeaning | src/CurrencyService.js:186-199 | a converted row has a text base currency and a local amount; its own currency is rounded to the cent; another currency is divided by its non-zero rate and lands within half a cent of the exact quotient |
| CurrencyService.ConvertRowsFrame | src/CurrencyService.js:180-201 | the pass changes only column D of data rows; the header row and every row it does not convert are unchanged |
| CurrencyService.ConvertRowsIdempotent | src/CurrencyService.js:180-201 | running the pass again with the same rates changes nothing more |
| CurrencyService.ConvertRowReadsNoBaseAmount | src/CurrencyService.js:181-185 | the decision for a row does not depend on the column the pass writes |
| CurrencyService.WritesBound | src/CurrencyService.js:179-200 | the update count is at most the number of data rows |
| CurrencyService.NumericBaseWritesNothing | src/CurrencyService.js:187 | with a numeric base currency the pass converts no row |
| CurrencyService.ConversionExampleYen | src/CurrencyService.js:182-199 | " jpy " 9250 at 92.5 per dollar converts to 100 |
| CurrencyService.ConversionExampleEuro | src/CurrencyService.js:190-199 | 100 EUR at 0.73 per dollar converts to 136.99 |
| CurrencyService.ConversionExampleNoRate | src/CurrencyService.js:190-194 | a code missing from the rates is reported, not converted |
| CurrencyService.RateService.FetchRatesFromPrimary | src/CurrencyService.js:27-45 | one primary request; the result is the primary's rates |
| CurrencyService.RateService.FetchRatesFromFallback | src/CurrencyService.js:52-72 | one fallback request; the result is the fallback's rates |
| CurrencyService.RateService.FetchExchangeRates | src/CurrencyService.js:79-87 | the requests are the fetch order above; the result is the fetched rates |
| CurrencyService.RateService.GetCachedRates | src/CurrencyService.js:94-103 | returns the cache lookup |
| CurrencyService.RateService.CacheRates | src/CurrencyService.js:110-117 | stores the rates under the key for 21600 seconds when the cache accepts the write, and otherwise leaves the cache as it was |
| CurrencyService.RateService.GetExchangeRates | src/CurrencyService.js:124-135 | result, new cache and requests sent are those of the cache-first resolution |
| CurrencyService.RateService.GetExchangeRate | src/CurrencyService.js:143-155 | result, new cache and requests sent are those of `ExchangeRate` |
| CurrencyService.RateService.UpdateExchangeRates | src/CurrencyService.js:161-203 | the outcome, the cache, the requests and the sheet in every case: with no Settings sheet, no data rows, rates unavailable or a numeric base currency the sheet is unchanged; a successful run leaves exactly the converted sheet and reports the number of rows written |
| CurrencyService.RateService.ConvertLedger | src/CurrencyService.js:179-201 | the loop leaves exactly the converted sheet and returns the number of rows written, or fails with nothing written when the base currency is numeric |
| BudgetTracker.StatusLabel | src/BudgetTracker.js:22-24 | the status texts "OK", "Warning" and "Over Budget" |
| BudgetTracker.GetStatus | src/BudgetTracker.js:75-76 | a budget of 0 or less is always OK |
| BudgetTracker.StatusByAmount | src/BudgetTracker.js:75-81 | with a positive budget: Over Budget exactly from the budget up, Warning exactly from threshold × budget up to the budget, OK below both |
| BudgetTracker.StatusMonotone | src/BudgetTracker.js:75-81 | spending more never lowers the status |
| BudgetTracker.AddRow | src/BudgetTracker.js:40-43 | one round of the totals loop: a row with a category and a numeric amount adds the amount to its category's total |
| BudgetTracker.RawTotals | src/BudgetTracker.js:39-44 | the totals loop over the data rows, before rounding |
| BudgetTracker.CategoryTotals | src/BudgetTracker.js:30-50 | `getCategoryTotals` of a sheet: the raw totals, each rounded to the cent |
| BudgetTracker.AddRowMeaning | src/BudgetTracker.js:40-43 | one row adds its amount to its own category and touches no other |
| BudgetTracker.RawTotalsMeaning | src/BudgetTracker.js:39-44 | a category has a total exactly when some row counts towards it, and the total is the sum of those rows' amounts |
| BudgetTracker.NoMentionNoSum | src/BudgetTracker.js:42 | a category no row counts towards sums to 0 |
| BudgetTracker.CategoryTotalsMeaning | src/BudgetTracker.js:30-50 | the totals have exactly the categories of the data rows, each its sum rounded once to the cent |
| BudgetTracker.CategoryTotalsOfHeaderOnly | src/BudgetTracker.js:37-39 | a sheet with no data rows has no totals |
| BudgetTracker.RoundsOnceExample | src/BudgetTracker.js:43-48 | two amounts of 10.005 total 20.01, not the 20.02 that rounding each amount would give |
| BudgetTracker.EmptyAmountCountsAsZero | src/BudgetTracker.js:41-43 | an empty amount is 0, not NaN, so its category still appears |
| BudgetTracker.LedgerTotals | src/BudgetTracker.js:30-50 | `getCategoryTotals`: no totals when the Transactions sheet is missing, otherwise the category totals of its rows |
| BudgetTracker.GetCategoryTotals | src/BudgetTracker.js:30-50 | with no sheet the totals are empty; otherwise they are `CategoryTotals` of the sheet |
| BudgetTracker.AccumulateTotals | src/BudgetTracker.js:37-44 | the first loop builds the unrounded sums of the data rows |
| BudgetTracker.AddRowTo | src/BudgetTracker.js:40-43 | one round of that loop is the step `AddRowMeaning` describes |
| BudgetTracker.RoundTotals | src/BudgetTracker.js:46-48 | the second loop keeps the keys and rounds every value to the cent |
| BudgetTracker.BudgetLimit | src/BudgetTracker.js:56-58 | `getBudgetLimit`: the "Budget Limit" setting as a number, 5000 by default |
| BudgetTracker.AlertThreshold | src/BudgetTracker.js:64-66 | `getAlertThreshold`: the "Alert Threshold" setting as a number, 0.8 by default |
| BudgetTracker.BudgetSettingsDefaults | src/BudgetTracker.js:56-66 | both settings fail only without a Settings sheet; missing or empty values give 5000 and 0.8 |
| BudgetTracker.Categories | src/BudgetTracker.js:92 | the categories are listed once each, strictly sorted |
| BudgetTracker.EntryFor | src/BudgetTracker.js:94-103 | the summary object of one category: total, budget, remainder to the cent and status |
| BudgetTracker.SummaryOf | src/BudgetTracker.js:87-106 | `getBudgetSummary`: one entry per category in sorted order |
| BudgetTracker.SummaryListsCategories | src/BudgetTracker.js:87-106 | the summary has one entry per category and no other, strictly sorted by category |
| BudgetTracker.SummaryEntryMeaning | src/BudgetTracker.js:94-103 | each entry carries its total, the shared budget, the remainder rounded to the cent, and the status of its total |
| BudgetTracker.SummaryUnique | src/BudgetTracker.js:92-104 | any sorted listing with those entries is the summary |
| BudgetTracker.BudgetSummary | src/BudgetTracker.js:87-106 | `getBudgetSummary` for given totals: reads the budget, then the threshold, failing when a setting cannot be read, and otherwise lists the summary |
| BudgetTracker.EmptySummary | src/BudgetTracker.js:91-105 | no totals give an empty summary |
| BudgetTracker.SummaryExample | src/BudgetTracker.js:87-106 | Transport 300 and Food 4500 of 5000 at 0.8 list Food (Warning, 500 left) before Transport (OK, 4700 left) |
| BudgetTracker.BuildSummary | src/BudgetTracker.js:91-105 | the loop pushes exactly the summary entries, in sorted order |
| BudgetTracker.MakeEntry | src/BudgetTracker.js:95-103 | the pushed object is the category's entry |
| BudgetTracker.GetBudgetSummary | src/BudgetTracker.js:87-106 | reads the totals, then the budget, then the threshold; the result is the summary, or the settings failure |
| BudgetTracker.AlertOf | src/BudgetTracker.js:119-121 | the percentage is within 0.05 of total / budget × 100 |
| BudgetTracker.SelectAlerts | src/BudgetTracker.js:112-126 | `getOverBudgetCategories`: the entries with a positive budget whose total / budget is at least the threshold, each with its percentage |
| BudgetTracker.SelectAlertsAppend | src/BudgetTracker.js:116-124 | alerts keep the summary's order |
| BudgetTracker.SelectAlertsMembership | src/BudgetTracker.js:116-124 | an alert is exactly a summary entry with a positive budget at or over the threshold, with its percentage |
| BudgetTracker.SelectAlertsBound | src/BudgetTracker.js:115-125 | never more alerts than entries |
| BudgetTracker.SelectedIffFlagged | src/BudgetTracker.js:118-120 | with a threshold of at most 1, an entry is alerted exactly when its status is not OK |
| BudgetTracker.ThresholdAboveOneExample | src/BudgetTracker.js:118-120 | with a threshold above 1 an Over Budget category can go without an alert |
| BudgetTracker.OverBudgetCategories | src/BudgetTracker.js:112-126 | `getOverBudgetCategories` for given totals: the summary, then the threshold, and the alerts selected from the summary |
| BudgetTracker.AlertsAreFlaggedEntries | src/BudgetTracker.js:112-126 | with a threshold of at most 1, the alerts are exactly the summary's Warning and Over Budget entries |
| BudgetTracker.KeepOverThreshold | src/BudgetTracker.js:115-125 | the loop keeps exactly the selected entries, in order, each with its percentage |
| BudgetTracker.GetOverBudgetCategories | src/BudgetTracker.js:112-126 | the result is the alerts of the summary at the threshold, or the settings failure |
| AlertService.MailChannel.SendAlert | src/AlertService.js:24-37 | no attempt and false without a recipient; otherwise one attempt, true exactly when it did not throw |
| AlertService.Delivered | src/AlertService.js:93-98 | the `sent` counter: how many of the attempts numbered from a start did not throw |
| AlertService.DeliveredBound | src/AlertService.js:93-99 | no more sent than attempted, and all of them when none throws |
| AlertService.PercentText | src/AlertService.js:96 | `String(a.percent)` of a percentage kept in tenths, with '-' for a negative one |
| AlertService.Money | src/AlertService.js:48-50 | `formatCurrency(x)` of a number, with the default symbol |
| AlertService.AlertBody | src/AlertService.js:44-53 | the alert mail's text, line by line |
| AlertService.AlertBodyMentions | src/AlertService.js:44-53 | the alert greets, quotes the category, gives its percentage, links the spreadsheet and ends with the signature |
| AlertService.AlertBodyAmounts | src/AlertService.js:48-50 | the alert shows spent, budget and remaining as currency |
| AlertService.AlertSubject | src/AlertService.js:96 | the alert mail's subject: category and percentage |
| AlertService.PercentTextReadsBack | src/AlertService.js:96 | the printed percentage of any tenths, negative ones included, reads back as those tenths |
| AlertService.AlertSubjectPercent | src/AlertService.js:96 | the subject ends with the percentage, which reads back as the alert's tenths whatever their sign |
| AlertService.SummaryLine | src/AlertService.js:69-70 | one entry's line: category, total and budget as currency, and the status in parentheses |
| AlertService.WeeklySummaryBody | src/AlertService.js:60-76 | the weekly summary's text: header, one line per entry or "No transactions", link and signature |
| AlertService.WeeklySummaryFrame | src/AlertService.js:60-76 | the summary opens with its header, ends with the link and the signature, and says "No transactions" when empty |
| AlertService.WeeklySummaryLineAt | src/AlertService.js:67-71 | each entry's line stands in the body right after the lines before it |
| AlertService.SummaryLineIsOneLine | src/AlertService.js:69-70 | an entry whose category has no line break makes exactly one line |
| AlertService.SummaryLinesCount | src/AlertService.js:67-71 | the entries give exactly one line each |
| AlertService.MoneyHasNoNewline | src/AlertService.js:69 | a formatted amount holds no line break |
| AlertService.BuildWeeklySummaryBody | src/AlertService.js:60-76 | the method builds exactly `WeeklySummaryBody` |
| AlertService.AppendLines | src/AlertService.js:67-71 | appending the lines one by one gives their concatenation |
| AlertService.AlertMessage | src/AlertService.js:96-97 | the subject and body built for one alert |
| AlertService.AlertAttempt | src/AlertService.js:94-98 | attempt k carries alert k's subject and body |
| AlertService.SettingsPresent | src/BudgetTracker.js:112-126 | with a Settings sheet the summary and the alerts are available, and the alerts are those of the summary |
| AlertService.SendEach | src/AlertService.js:93-99 | one attempt per alert, in order, counting those that went through |
| AlertService.SendBudgetAlerts | src/AlertService.js:82-101 | fails without a Settings sheet; sends nothing without a recipient or without alerts; otherwise attempts exactly the alert mails, in order |
| AlertService.SendWeeklySummary | src/AlertService.js:107-116 | fails without a Settings sheet; sends nothing without a recipient; otherwise exactly one attempt with the weekly summary, even when it is empty |

## Left out

- Floating point: every number is an exact real. Binary rounding errors in sums, quotients and `toFixed` are not modelled.
- `String(n)` in exponent form (very large or very small numbers) is not modelled. Fractions print the exact digits, at most 20 of them, not JavaScript's shortest round-trip digits.
- `Number` and `parseFloat` read plain decimal literals only. Exponents, hexadecimal and "Infinity" are not read.
- Utils.SettingNumberPercent: stated for text with one '%' only. `TextNumber` itself removes just the first '%', as `replace` does, but no lemma describes text with several.
- `toUpperCase` changes ASCII letters only. Other scripts' case mappings are left out.
- `Ordering.Less` compares code points. JavaScript compares UTF-16 code units, so names outside the Basic Multilingual Plane may sort differently.
- The totals object is a `map`. Names such as "constructor" or "__proto__", which clash with the object's prototype in JavaScript, are not modelled.
- Cells hold numbers or text only. Booleans and dates in cells are left out, and so are ragged rows.
- HTTP, JSON parsing, the script cache service and the mail service are data (`Network`, the `cache` field, `MailChannel`). A cached value that parses to a truthy non-object is left out.
- CurrencyService.RateService: whether the cache accepts a write is the constant `writable`, fixed for the service's life. A `cache.put` that fails on one call and succeeds on a later one is not modelled.
- The cache lifetime (21600 seconds) is stored with each entry, but expiry over time is not modelled.
- Logging is left out; it does not change any result.
- `formatDate`, `checkBudgetAlerts` (its UI dialog), the dashboard and the menu and trigger set-up are not part of this model.
- The spreadsheet URL is a parameter.
- BudgetTracker.GetOverBudgetCategories: the source sets `percent` on the summary object itself; the model returns a new `Alert` value that holds the entry and the percentage.
- AlertService.SendBudgetAlerts: builds the subject and body of every alert before the first attempt, not between attempts. The texts do not depend on the attempts, so the mails sent and their order are the same.
- AlertService.SummaryLinesCount: assumes no category name contains a line break.
- A sheet cell never holds NaN, so NaN's falsiness is not modelled.
