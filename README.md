# financeMacroFactors in Dafny

This project models the computational core of the Python package
financeMacroFactors and proves properties of that model. The package scrapes
company data from three web sources into lists of rows and values one
company by Discounted Future Earnings (DFE).

- **MarketWatch** (`market_watch.dfy`). `convertNumberMW` reads MarketWatch's
  number notation: "-", thousands separators, "(...)" for negatives, and the
  suffixes T, B, M, K and %. `getDataFromMWURL` flattens the tables of a
  statement page into one header line followed by one line per kept row.
  `getTickerFundamentalDataMW` fetches the six statement pages of a ticker
  into a dictionary.
- **Valuation** (`valuation.dfy`). `discountedFutureEarnings` extends the
  last N yearly earnings per share five years along the straight line
  through the last two values. It multiplies the fifth year by a terminal
  factor, discounts year k+1 by `discountingFactor^-(k+1)` and sums the
  five values.
- **Yahoo** (`yahoo.dfy`). `getStockDataYahoo` checks the frequency and
  builds the history URL. It then turns the history tables into a header
  line and one line per data row. Every cell after the first becomes a
  number whether or not conversion is on; conversion decides only whether
  the first cell becomes a date or stays text.
- **S&P 500 list** (`company_lists.dfy`). `getSNP500CompanyList` zips the
  header row of the constituents table with each data row, giving one
  record per company.
- **Greeting** (`greeting.dfy`). `sayHello`.

Three supporting modules hold the parts of Python the code relies on:

- `wrappers.dfy` holds Option, Result and the one Python exception that
  escapes the modelled code, NameError.
- `pytext.dfy` holds `str.strip`, `str.split`, `str.replace` with an empty
  replacement, `str(int)`, `int()` and `float()`.
- `page.dfy` holds the shape of a parsed page. A page is a sequence of
  tables. A table is a sequence of rows. A row holds the texts of its
  `<th>` cells and the texts of its `<td>` cells.

HTTP and HTML parsing are not modelled. Each operation takes the parsed
tables as input, or takes a `fetch` function from URL to parsed tables.
`None` stands for a request or parse that raised.

An operation that changes state step by step is a method, with loops where
the source loops:

- the rewriting of the number text in `convertNumberMW`;
- the nested table and row loops, which append to `allData`;
- the loop that fills the statement dictionary;
- the string built with `+=` in `getStockDataYahoo`;
- the in-place scaling of `epsExt[-1]`;
- the record loop of `getSNP500CompanyList`.

Each such method is proved equal to a specification function. The
properties the code promises are proved as lemmas about those functions.

The four defects listed under Findings are each modelled twice. One member
is the code as written, which raises or returns nothing. The other is the
evidently intended behaviour, and it is the one the rest of the model uses.

The discount order follows the code at `valuationMethods.py:52`. The nearest
year is weighted by `discountingFactor^-1` and the terminal year by
`discountingFactor^-5`. For a factor above one, later years are therefore
discounted more, which is the usual convention (`Valuation.DiscountDecreasing`).

## Model

| member | source | states |
|---|---|---|
| Greeting.SayHello | financeMacroFactors/financeMacroFactors.py:19-22 | the greeting always begins "Hello "; without a name it is "Hello World"; with a name it is 6 + the name's length long and ends with the name |
| Greeting.GreetingNamesTheCaller | financeMacroFactors/financeMacroFactors.py:22 | two names get the same greeting exactly when they are equal |
| Greeting.DefaultGreetsWorld | financeMacroFactors/financeMacroFactors.py:19-22 | leaving the name out greets "World" |
| PyText.StripTrims | financeMacroFactors/companies/companyLists.py:41 | what strip() returns neither starts nor ends with whitespace |
| PyText.StripIdempotent | financeMacroFactors/companies/companyLists.py:41 | stripping twice is stripping once |
| PyText.RemoveCharKeepsOthers | financeMacroFactors/companies/marketWarchData.py:34 | removing commas keeps every other character exactly as often as it occurs |
| PyText.SplitThreeWords | financeMacroFactors/companies/yahooData.py:96 | three space-free words joined by single spaces split back into those three words |
| PyText.IntRoundTrip | financeMacroFactors/companies/yahooData.py:62-63 | int() of str(i) is i for every integer |
| Page.DropLast | financeMacroFactors/companies/marketWarchData.py:110 | `s[:-1]` is s without its last element, and empty for an empty list |
| MarketWatch.ConvertNumberMW | financeMacroFactors/companies/marketWarchData.py:30-59 | the step-by-step rewriting of the cell text gives the value MWValue defines |
| MarketWatch.StripSuffixLetters | financeMacroFactors/companies/marketWarchData.py:41-56 | the five suffix tests, each once, in the order T, B, M, K, %, each on the text the previous tests left |
| MarketWatch.StripSuffixesPrefix | financeMacroFactors/companies/marketWarchData.py:41-56 | the suffix tests only cut characters off the end and always leave a valid multiplier |
| MarketWatch.MWValueDash | financeMacroFactors/companies/marketWarchData.py:31-32 | "-" converts to 0 |
| MarketWatch.MWValueDashComma | financeMacroFactors/companies/marketWarchData.py:31-34 | the "-" test is an exact match made before commas are removed: "-," is not 0 but is refused by float() |
| MarketWatch.MWValueIgnoresCommas | financeMacroFactors/companies/marketWarchData.py:34 | a cell converts as it would with its commas removed, unless only "-" would remain |
| MarketWatch.MWValueParenthesised | financeMacroFactors/companies/marketWarchData.py:35-39 | a value wrapped in "(" and ")" converts to the negation of the value inside |
| MarketWatch.MWValueBracketedNegative | financeMacroFactors/companies/marketWarchData.py:34-39 | "(t)", where t is a decimal v once its commas are removed, converts to -v |
| MarketWatch.MWValuePlain | financeMacroFactors/companies/marketWarchData.py:58 | a plain decimal without suffix converts to its value, with multiplier 1 and sign 1 |
| MarketWatch.MWValueCommasPlain | financeMacroFactors/companies/marketWarchData.py:34-58 | a decimal with thousands separators converts to its value |
| MarketWatch.MWValueSuffix | financeMacroFactors/companies/marketWarchData.py:41-58 | a decimal followed by T, B, M, K or % is multiplied by 10^12, 10^9, 10^6, 10^3 or 1/100 |
| MarketWatch.MWValueLaterSuffixWins | financeMacroFactors/companies/marketWarchData.py:41-56 | when two suffixes are both cut off, the multiplier of the one tested later replaces the earlier one |
| MarketWatch.MWValueText | financeMacroFactors/companies/marketWarchData.py:58-62 | a result is a number or a text; a text result is one float() refuses and has no comma left |
| MarketWatch.MWValueNegativeExample | financeMacroFactors/companies/marketWarchData.py:34-58 | "(1,234)" converts to -1234 |
| MarketWatch.MWValueBillionExample | financeMacroFactors/companies/marketWarchData.py:45-58 | "1.5B" converts to 1.5·10^9 |
| MarketWatch.MWValuePercentExample | financeMacroFactors/companies/marketWarchData.py:54-58 | "12.5%" converts to 0.125 |
| MarketWatch.ConvertNumberMWAsWritten | financeMacroFactors/companies/marketWarchData.py:60-62 | as written, a text that float() refuses raises an error instead of returning; every other cell gives the corrected value |
| MarketWatch.ConvertNumberMWRaisesOnText | financeMacroFactors/companies/marketWarchData.py:20-62 | "N/A": the corrected conversion returns the text, while the code as written raises NameError for `sys` |
| MarketWatch.MWPageAsWritten | financeMacroFactors/companies/marketWarchData.py:98-127 | as written, the page is either the corrected page or []; without conversion it is the corrected page |
| MarketWatch.RefusedCellEmptiesPage | financeMacroFactors/companies/marketWarchData.py:113-127 | as written, one kept row with a cell after its label that float() refuses makes the whole page [] under convert, while the corrected page is not empty |
| MarketWatch.KeptRowIn | financeMacroFactors/companies/marketWarchData.py:113-122 | the data of every row that is not skipped is among the kept lines |
| MarketWatch.GetDataFromMWURL | financeMacroFactors/companies/marketWarchData.py:66-127 | with convert defaulting to true, the nested loops produce the page's lines (MWPage): [] when fetching raised, and the first row's header line first whenever the first table has a row |
| MarketWatch.VisitRow | financeMacroFactors/companies/marketWarchData.py:109-122 | one pass of the row loop: the header line at the very first row, then the row's line unless it is skipped |
| MarketWatch.MapAt | financeMacroFactors/companies/marketWarchData.py:121 | element j of the comprehension `[f(x) for x in xs]` is f(xs[j]) |
| MarketWatch.RowStep | financeMacroFactors/companies/marketWarchData.py:113-122 | one row adds nothing when skipped, else its line |
| MarketWatch.ConvertLine | financeMacroFactors/companies/marketWarchData.py:121 | the label is kept as text and every later cell is converted |
| MarketWatch.SkippedRowVanishes | financeMacroFactors/companies/marketWarchData.py:115-118 | a row with no data, or whose label ends in "Growth" or "Margin", contributes nothing wherever it stands |
| MarketWatch.KeptRowsAreKept | financeMacroFactors/companies/marketWarchData.py:113-118 | at most one line per row; every kept line has a label that ends in neither "Growth" nor "Margin" |
| MarketWatch.KeptRowsAll | financeMacroFactors/companies/marketWarchData.py:113-122 | when no row is skipped, line k is the data of row k (its stripped cells without the last) |
| MarketWatch.KeptRowsAllAt | financeMacroFactors/companies/marketWarchData.py:113-122 | when there is one kept line per row, line k is the data of row k |
| MarketWatch.MWTableLinesAppend | financeMacroFactors/companies/marketWarchData.py:107-122 | the rows of later tables follow those of earlier ones, and only the first table supplies the header |
| MarketWatch.GetTickerFundamentalDataMW | financeMacroFactors/companies/marketWarchData.py:129-176 | with convert defaulting to true, the dictionary has exactly the six statement keys, each mapped to the lines of its URL template filled with the ticker |
| MarketWatch.StatementKeysDistinct | financeMacroFactors/companies/marketWarchData.py:153-160 | the six keys are pairwise different, so no statement overwrites another |
| MarketWatch.StatementUrlNamesTicker | financeMacroFactors/companies/marketWarchData.py:166 | two tickers give the same statement URL exactly when they are equal |
| Valuation.DiscountedFutureEarnings | financeMacroFactors/valuation/valuationMethods.py:36-58 | None exactly when there are fewer than three values; otherwise the array computation equals the DFE formula |
| Valuation.ExtendEarnings | financeMacroFactors/valuation/valuationMethods.py:42-47 | a fresh array holding the five extrapolated years |
| Valuation.DiscountArray | financeMacroFactors/valuation/valuationMethods.py:52 | a fresh array holding discountingFactor^-(k+1) for k = 0..4 |
| Valuation.DotProduct | financeMacroFactors/valuation/valuationMethods.py:56 | the loop computes the dot product of the two arrays |
| Valuation.ExtrapolateOnLine | financeMacroFactors/valuation/valuationMethods.py:42-47 | m years past the last sample the value is interp1d's line at x = N-1+m |
| Valuation.InterpLineThroughLastTwo | financeMacroFactors/valuation/valuationMethods.py:46 | the extrapolation line passes through the last two samples |
| Valuation.ExtrapolatedOnLine | financeMacroFactors/valuation/valuationMethods.py:43-47 | epsExt[k] is the line at xExt[k] = N+k, and consecutive years differ by the last segment's slope |
| Valuation.DFEDependsOnLastTwo | financeMacroFactors/valuation/valuationMethods.py:42-58 | two histories of three or more values that end in the same two values get the same valuation |
| Valuation.DotWithTerminal | financeMacroFactors/valuation/valuationMethods.py:48-56 | the terminal factor scales only the fifth year's term of the sum |
| Valuation.DFEAdditive | financeMacroFactors/valuation/valuationMethods.py:42-58 | the valuation of two histories added year by year is the sum of their valuations |
| Valuation.DiscountDecreasing | financeMacroFactors/valuation/valuationMethods.py:52 | for a factor above one, every discount is positive and each later year's is strictly smaller |
| Valuation.DFEExample | financeMacroFactors/valuation/valuationMethods.py:5-58 | [1.0, 1.2, 1.5, 1.8, 2.0] with the defaults 1.1 and 10.0 is valued at 4264142/161051 |
| Valuation.DiscountedFutureEarningsAsWritten | financeMacroFactors/valuation/valuationMethods.py:32 | as written, every call raises NameError before the try block |
| Valuation.DFEPastLine32 | financeMacroFactors/valuation/valuationMethods.py:34-67 | with a logger in place, every history gives None: fewer than three values at line 40, the others through the except clause |
| Valuation.LoggingNameErrorShown | financeMacroFactors/valuation/valuationMethods.py:32 | the example history raises as written, yet has a corrected valuation |
| Valuation.TerminalFactorsNameErrorShown | financeMacroFactors/valuation/valuationMethods.py:48 | past line 32, every history of three or more values gives None, where the corrected function gives a valuation |
| Yahoo.GetStockDataYahoo | financeMacroFactors/companies/yahooData.py:9-110 | with frequency defaulting to "1mo" and convert to true: [] for a frequency other than 1d, 1wk or 1mo; otherwise the lines of the page fetched from the history URL, or [] when that raised |
| Yahoo.YahooUrlPeriods | financeMacroFactors/companies/yahooData.py:61-66 | two URLs for the same ticker are equal exactly when both periods are equal |
| Yahoo.YahooUrlShape | financeMacroFactors/companies/yahooData.py:61-66 | the URL starts with the quote base, the ticker and "/history?", and ends with interval, filter and frequency fixed at 1mo |
| Yahoo.IntToStringInjective | financeMacroFactors/companies/yahooData.py:62-63 | different timestamps are written differently |
| Yahoo.ReadHistoryTables | financeMacroFactors/companies/yahooData.py:81-110 | the nested loops give the header line and the rows' lines, or [] once any row raised |
| Yahoo.VisitRow | financeMacroFactors/companies/yahooData.py:84-102 | one loop pass: at the first row the header is bound and emitted, then the row's line is added, or an exception is reported |
| Yahoo.RowStep | financeMacroFactors/companies/yahooData.py:89-102 | one row's contribution given the header bound so far |
| Yahoo.ConvertFloats | financeMacroFactors/companies/yahooData.py:101 | the comprehension gives float() of each cell with its commas removed, or raises at the first refusal |
| Yahoo.Floats | financeMacroFactors/companies/yahooData.py:101 | a converted list has one cell per input text |
| Yahoo.FloatsAt | financeMacroFactors/companies/yahooData.py:101 | the conversion succeeds exactly when float() accepts every text with its commas removed, and cell j is then the float of text j |
| Yahoo.FloatsCellAt | financeMacroFactors/companies/yahooData.py:101 | in a converted list, cell j is float() of text j with its commas removed |
| Yahoo.FloatsRefusedCell | financeMacroFactors/companies/yahooData.py:101 | a failed conversion names a text that float() refuses |
| Yahoo.DataLine | financeMacroFactors/companies/yahooData.py:95-101 | a row's line has as many cells as the row |
| Yahoo.DataLineCells | financeMacroFactors/companies/yahooData.py:95-101 | the line exists exactly when the date (under convert) and every later cell convert; its first cell is the date under convert and the text otherwise, and the rest is the float list; a row without cells raises under convert and gives an empty line otherwise |
| Yahoo.RowLines | financeMacroFactors/companies/yahooData.py:89-102 | a row adds at most one line |
| Yahoo.RowLinesFilter | financeMacroFactors/companies/yahooData.py:89-102 | both directions of the length filter: before the header is bound the row raises; a row with fewer cells than the header adds nothing; any other row adds exactly its line, and raises exactly when that line does |
| Yahoo.LinesShape | financeMacroFactors/companies/yahooData.py:91-101 | every line has at least as many cells as the header, and there is at most one line per row; without conversion the first cell stays text |
| Yahoo.HeaderLineFirst | financeMacroFactors/companies/yahooData.py:84-86 | a non-empty result starts with the stripped header texts of the first row of the first table |
| Yahoo.DaysInMonth | financeMacroFactors/companies/yahooData.py:98 | a month has 28 to 31 days |
| Yahoo.ParseDate | financeMacroFactors/companies/yahooData.py:96-98 | any date produced is a valid calendar date |
| Yahoo.DateRoundTrip | financeMacroFactors/companies/yahooData.py:96-98 | every valid date written as "day Mon year" reads back as itself |
| Yahoo.ParseDateExample | financeMacroFactors/companies/yahooData.py:96-98 | "31 Jul 2020" reads as 31 July 2020 |
| Yahoo.ParseDateAsWritten | financeMacroFactors/companies/yahooData.py:96-97 | as written, no text ever yields a date |
| Yahoo.AsWrittenNoDataLines | financeMacroFactors/companies/yahooData.py:91-99 | as written, with conversion on, no row ever adds a line |
| Yahoo.AsWrittenOnlyHeader | financeMacroFactors/companies/yahooData.py:81-110 | as written, with conversion on, the result holds at most the header line |
| Yahoo.OneDatedRow | financeMacroFactors/companies/yahooData.py:84-102 | a header row plus one dated row gives the header and a date line when the date converts, and [] when it raises |
| Yahoo.MonthTableFinding | financeMacroFactors/companies/yahooData.py:97 | the same one-row page yields a date line when corrected and [] as written |
| CompanyLists.ZipPrefix | financeMacroFactors/companies/companyLists.py:46 | the keys of dict(zip(...)) over n pairs are the first n header texts |
| CompanyLists.ZipLastWins | financeMacroFactors/companies/companyLists.py:46 | a key maps to the value of its last occurrence among the zipped pairs |
| CompanyLists.RowRecordKeys | financeMacroFactors/companies/companyLists.py:46 | a record's keys are the headers of the columns the row has; headers beyond the shorter list are absent |
| CompanyLists.RowRecordFields | financeMacroFactors/companies/companyLists.py:46 | with distinct headers, each header maps to the stripped text of its own column |
| CompanyLists.CompanyHeader | financeMacroFactors/companies/companyLists.py:40-41 | the header is the stripped `<th>` texts of the first row |
| CompanyLists.RecordsAt | financeMacroFactors/companies/companyLists.py:44-47 | there is one record per data row, and record k is the record of row k |
| CompanyLists.GetSNP500CompanyList | financeMacroFactors/companies/companyLists.py:29-56 | [] for a missing table or a table without rows; otherwise one record per row after the first, in row order |
| CompanyLists.CompanyRecordFields | financeMacroFactors/companies/companyLists.py:40-47 | record i has exactly the headers of the columns of row i+1 as keys, and with distinct headers each maps to that column's stripped text |
| CompanyLists.RepeatedHeaderKeepsLast | financeMacroFactors/companies/companyLists.py:46 | a repeated header becomes one key holding the later column's text |

## Left out

- HTTP requests and BeautifulSoup parsing are not modelled. The parsed tables, or a `fetch` function from URL to parsed tables, are inputs. A request or parse that raises is `None`.
- Logging is not modelled; it has no effect on any result. The two cases where logging code raises (`sys` at `marketWarchData.py:61` and `logging` at `valuationMethods.py:32`) are modelled; see Findings.
- In `getStockDataYahoo`, the `dt.now()` defaults of the two periods and `.timestamp()` are not modelled. The periods are given integers. The other defaults are kept: `frequency` is "1mo" and `convert` is true, as they are for `getDataFromMWURL` and `getTickerFundamentalDataMW`.
- Python dicts keep insertion order, and Dafny maps do not. The statement dictionary of `getTickerFundamentalDataMW` lists its keys in the order of `marketWarchData.py:154-159`, and each company record lists its keys in header order. No modelled code depends on this order, but a caller that iterates the result sees it; the model keeps only the keys and values.
- The `datetime` value of a date cell is a calendar date (year, month, day). The time of day is always midnight and is not modelled.
- Floating point is not modelled: values are exact reals, and the multipliers 1e12, 1e9, 1e6, 1e3 and 1e-2 are exact.
- float() is modelled on plain signed decimals only. Exponents, inf, nan and digit underscores are refused in the model, although Python accepts them.
- int() is modelled on optionally signed ASCII digit strings only. Digit underscores and non-ASCII digits are not modelled.
- Valuation.DiscountedFutureEarnings: requires a non-zero discounting factor. numpy would divide by zero, producing inf with a warning rather than raising.
- Valuation.DiscountedFutureEarnings: earnings are finite reals. numpy arrays holding nan, or holding non-numbers, are not modelled.
- MarketWatch.MWValue: a text that float() refuses comes back as rewritten by lines 34-56, as line 62 returns it, not as the original string the docstring (line 25) promises.
- MarketWatch.GetTickerFundamentalDataMW: the `{}` result of its except clause (lines 171-173) is not modelled. Nothing in its loop can raise once `getDataFromMWURL` catches its own errors.
- CompanyLists.GetSNP500CompanyList: a failed download and a page without the constituents table are both `None`, and both give [].
- The P/S, P/E and DCF valuations are named in the package docstring, but `valuationMethods.py` defines only `discountedFutureEarnings`, so they have no code to model.
- `valuation/__init__.py:22` imports `discountedCashFlow`, which does not exist, so importing the subpackage raises ImportError. Package imports are not part of this model.
- `setup.py` is packaging only and is not part of this model.

## Findings

| source | as written | input that shows it | evidently intended | confidence | as-written member | corrected member |
|---|---|---|---|---|---|---|
| financeMacroFactors/companies/marketWarchData.py:61 | the except clause passes `file=sys.stderr`, but `sys` is never imported, so a text that float() refuses raises NameError out of convertNumberMW, and under convert=True getDataFromMWURL returns [] for the whole page | the cell "N/A" | return the text, as line 62 does once the except clause runs, which also needs `file=sys.stderr` removed: `Logger.error` passes its keyword arguments on to `Logger._log`, which has no `file` parameter, so importing `sys` alone would raise TypeError instead whenever ERROR logging is enabled; line 62 returns the text after the commas, brackets and suffixes are removed ("(1,2x)" gives "12x"), while the docstring (line 25) promises the original string; the model follows line 62 | high, not executed | MarketWatch.ConvertNumberMWAsWritten, MarketWatch.ConvertNumberMWRaisesOnText, MarketWatch.MWPageAsWritten, MarketWatch.RefusedCellEmptiesPage | MarketWatch.ConvertNumberMW, MarketWatch.MWValueText |
| financeMacroFactors/valuation/valuationMethods.py:32 | `logging` is never imported and line 32 sits before the try block, so every call raises NameError | eps = [1.0, 1.2, 1.5, 1.8, 2.0] | a module logger, and the DFE value | high, not executed | Valuation.DiscountedFutureEarningsAsWritten, Valuation.LoggingNameErrorShown | Valuation.DiscountedFutureEarnings, Valuation.DFEExample |
| financeMacroFactors/valuation/valuationMethods.py:48 | `terminalFactors` is not defined; the NameError is caught at line 61, so every history of three or more values gives None | eps = [1.0, 1.2, 1.5, 1.8, 2.0] | multiply by the parameter `terminalFactor` | high, not executed | Valuation.DFEPastLine32, Valuation.TerminalFactorsNameErrorShown | Valuation.DiscountedFutureEarnings, Valuation.DotWithTerminal |
| financeMacroFactors/companies/yahooData.py:97 | `miniMonthMaps` is not defined, so with convert=True the first row that passes the length filter raises and the result is [] | header row ["Date"] and one row with the cell "31 Jul 2020" | a table from month names Jan..Dec to 1..12 | high, not executed | Yahoo.ParseDateAsWritten, Yahoo.MonthTableFinding | Yahoo.ParseDate, Yahoo.DateRoundTrip |
