# Iowa liquor sales report, modelled in Dafny

This project models `liquor_sales.py`, a small report over a CSV file of
liquor sales. The program has three stages:

- **Loader** (`get_sales_by_county`). It groups the sales by upper-cased county, in input order.
  - A row whose price does not parse is skipped.
  - A row whose date does not parse aborts the whole load.
- **Aggregator** (`get_average_sale`, `_calc_mean`, `_calc_total`). It drops every county with fewer than 10 sales. It keys every other county's untouched list by `(county, mean, total)`.
- **Report** (`print_results`). It ranks the counties by mean sale, highest first, and keeps the first 10. For each county it writes:
  - a blank line;
  - a header numbered from `01`;
  - a 60-dash separator;
  - the county's 5 dearest sales, each on a fixed-width line.

Modules, one per file:

- `Basics`: `Min`, `Max` and `Distinct`, shared by the other modules.
- `Wrappers`: `Option` and `Result`.
- `Text`: the string operations the report uses (`upper`, slicing, `{:<w}`, `{:>02}`).
- `StableSort`: `sorted(..., reverse=True)` followed by `[:n]`.
- `Sales`: the records and the three constants.
- `Loader`, `Aggregate` and `Report`: the three stages.
- `Pipeline`: one lemma that follows a county from the rows to the report.

The loader and the report are loops in the source, so they are methods with loop invariants. Each method is proved equal to a specification function (`Load`, `ReportLines`). The source's promises are proved as lemmas about those functions. The aggregator is a comprehension in the source, so it is a function.

Money is held as whole cents (`int`), so totals and means are exact. Parsing a price or a date, and rendering a date or an amount, are library code. They are passed in as function parameters.

Where the docstrings and the code disagree, the model follows the code:

- The docstring of `print_results` (liquor_sales.py:58) says the counties are ordered by highest total. The sort key at line 65 is index 1 of `(county, mean, total)`, which is the mean. The model ranks by mean.
- The sale line format at line 61 is `"{date}] {item:<50} ${price}"`. It has a `]` after the date and no opening bracket. The model writes it exactly so.

## Model

| member | source | states |
|---|---|---|
| `Text.Upper` | liquor_sales.py:20 | the county key has the same length as the input, holds no lower-case letter, keeps every other character and maps each ASCII lower-case letter to its capital |
| `Text.Truncate` | liquor_sales.py:77 | `item[:50]` is a prefix of the item of length `min(50, len(item))` |
| `Text.PadRight` | liquor_sales.py:60-61 | `{:<w}` gives width `max(w, len(s))`: `s` first, then only spaces; a longer `s` is kept whole |
| `Text.PadLeft` | liquor_sales.py:60 | right justification gives width `max(w, len(s))`: the fill character first, then `s` |
| `Text.DecimalString` | liquor_sales.py:60 | the decimal form of a counter is non-empty and all digits, two or more digits from 10 up, and starts with `0` only for 0 itself (no leading zero) |
| `Text.DecimalRoundTrip` | liquor_sales.py:60 | reading the decimal form back gives the counter |
| `Text.ZeroPad2` | liquor_sales.py:60 | `{counter:>02}` is all digits and at least two characters wide |
| `Text.ZeroPad2TwoDigits` | liquor_sales.py:60 | a counter below 100 is written as exactly its tens digit and its units digit, and reads back as itself |
| `Text.Repeat` | liquor_sales.py:62 | `c * n` is `n` copies of `c` |
| `StableSort.Insert` | liquor_sales.py:65 | inserting one element adds exactly that element, and the result starts with it or with the old first element |
| `StableSort.InsertSorted` | liquor_sales.py:65 | inserting into a descending sequence keeps it descending |
| `StableSort.Sort` | liquor_sales.py:65 | `sorted(..., reverse=True)` is a permutation of its input with non-increasing keys |
| `StableSort.WithKeyAppend` | liquor_sales.py:65 | selecting the elements with one key distributes over concatenation |
| `StableSort.InsertWithKey` | liquor_sales.py:65 | an inserted element goes before every element that has the same key |
| `StableSort.SortStable` | liquor_sales.py:65 | for every key value, the elements with that key come out in exactly their input order (the sort is stable) |
| `StableSort.Top` | liquor_sales.py:65-66 | `[:n]` of the sorted sequence has `min(n, len)` elements |
| `StableSort.TopLargest` | liquor_sales.py:65-66 | no element cut off by `[:n]` has a larger key than one kept |
| `StableSort.TopStable` | liquor_sales.py:65-66 | for every key value, the kept elements with that key are the earliest input elements with that key |
| `StableSort.TopLaws` | liquor_sales.py:65-66 | sort then `[:n]`: at most `n` elements, a sub-multiset of the input, keys non-increasing, the largest keys kept, ties in input order |
| `Loader.Append` | liquor_sales.py:28 | `defaultdict(list)` append: the sale goes at the end of its county's list (a new list if the county is new), the key set grows by that county only, and the other lists are unchanged; a new county goes at the end of the key order, an existing one leaves the order as it was |
| `Loader.Load` | liquor_sales.py:13-30 | a successful load is a well-formed table: the key order lists each key exactly once, and exactly the dictionary's keys |
| `Loader.LoadOrder` | liquor_sales.py:16-28 | the table's key order (the `defaultdict`'s iteration order) is the order in which the upper-cased counties first appear among the rows whose price parsed |
| `Loader.GetSalesByCounty` | liquor_sales.py:13-30 | the loop returns exactly `Load` of the rows; it stops at the first row with an unparsable date and skips rows with an unparsable price |
| `Loader.LoadAbortsAfter` | liquor_sales.py:27 | once a prefix of the rows fails, the whole load fails with the same error |
| `Loader.LoadOkIffNoBadDate` | liquor_sales.py:19-27 | the load succeeds if and only if no row has both a parsable price and an unparsable date; a bad price alone never aborts |
| `Loader.LoadFailsAtFirstBadDate` | liquor_sales.py:27 | the load fails with the date text of the first row whose price parses and whose date does not |
| `Loader.LoadGroups` | liquor_sales.py:19-28 | after a successful load, each county's list is exactly the sales of that county's price-parsed rows, in input order; a county is a key exactly when it has such a row |
| `Loader.LoadKeysUpper` | liquor_sales.py:20 | every key of a successful load is upper case |
| `Loader.AppendCounts` | liquor_sales.py:28 | one append adds exactly one sale to the table |
| `Loader.LoadCountsPricedRows` | liquor_sales.py:19-28 | after a successful load, the number of sales over all counties equals the number of rows whose price parsed |
| `Aggregate.TotalAppend` | liquor_sales.py:52-53 | the total of two lists laid end to end is the sum of their totals |
| `Aggregate.TotalBounds` | liquor_sales.py:53 | if every price is in `[lo, hi]`, the total of `n` sales is in `[n*lo, n*hi]` |
| `Aggregate.RoundHalfEven` | liquor_sales.py:47 | the result is within half a unit of the exact quotient, and an exact half goes to the even neighbour |
| `Aggregate.Mean` | liquor_sales.py:43-47 | the mean in cents is within half a cent of `total / max(1, len)`; the divisor is never zero |
| `Aggregate.RoundedBetween` | liquor_sales.py:46-47 | an integer within half of `t / n` lies in `[lo, hi]` when `t` lies in `[n*lo, n*hi]` |
| `Aggregate.MeanWithinPrices` | liquor_sales.py:43-47 | the mean of a non-empty group lies between its cheapest and its dearest price |
| `Aggregate.Summarize` | liquor_sales.py:33-40 | every entry has at least `MinSales` sales, which are its county's own unchanged list, with that list's mean and total; a county is kept if and only if it has at least `MinSales` sales; no county appears twice |
| `Report.Separator` | liquor_sales.py:62 | the separator is exactly 60 `-` characters |
| `Report.PrintResults` | liquor_sales.py:57-77 | the nested loops produce exactly `ReportLines`, and never more than `10 * (3 + 5)` lines |
| `Report.BlockSize` | liquor_sales.py:72-77 | a county's block has 3 lines plus `min(5, number of its sales)` |
| `Report.ReportSize` | liquor_sales.py:64-77 | there are `min(10, number of counties)` blocks; block `i` has 3 lines plus `min(5, sales of that county)`; the report has at most 80 lines |
| `Report.RankedCounties` | liquor_sales.py:64-69 | at most 10 counties are listed, means non-increasing; no county left out has a larger mean than one listed; equal means keep the dictionary's iteration order |
| `Report.ListedSales` | liquor_sales.py:76 | at most 5 sales are listed per county, prices non-increasing; none left out is dearer than one listed; equal prices keep input order |
| `Report.ReportBlockAt` | liquor_sales.py:64-74 | in the printed lines, the county ranked `i + 1` starts at line `Offset(i)`, the sum over the counties before it of 3 plus its number of listed sales: a blank line, then the header numbered `i + 1` for that county, then the separator; so the counters run 1, 2, … with no gaps |
| `Report.ReportSaleLineAt` | liquor_sales.py:76-77 | line `Offset(i) + 3 + j` of the printed lines is the sale line of the `j`-th listed sale of the county ranked `i + 1` |
| `Report.HeaderLayout` | liquor_sales.py:60 | a header is the two-digit counter, `". "`, the county padded with spaces to 52 columns (kept whole if longer), then ` $mean $total` |
| `Report.SaleLineLayout` | liquor_sales.py:61 | a sale line is the rendered date, `"] "`, the first `min(50, len(item))` characters of the item padded to exactly 50 columns, then ` $price` |
| `Pipeline.ListedCountiesComeFromRows` | liquor_sales.py:80-83 | every county in the report is upper case, has at least `MinSales` sales, and shows exactly the price-parsed sales of its rows in input order, with their mean and total |

`Aggregate.GetAverageSale` (liquor_sales.py:33-40) applies `Summarize` to the loader's table, its key order and its lists. It has no contract of its own: what it returns is stated by the `Aggregate.Summarize` row.

## Left out

- Opening the file and CSV parsing (liquor_sales.py:17-18) are I/O and library code. The input is a sequence of `Row` records with the four columns already split. A missing column (a `KeyError`) therefore cannot arise.
- `float(...)` on the price is library code. It is the parameter `parsePrice: string -> Option<Cents>`. Prices with more than two decimal places cannot be represented.
- `datetime.strptime(date, "%m/%d/%Y")` is library code. It is the parameter `parseDate: string -> Option<Date>`, and `None` stands for its `ValueError`.
- `datetime.strftime(date, "%Y-%m")` and `str` of a float are library code. They are the parameters `yearMonth` and `money`.
- `Aggregate.Mean`: Python rounds the binary float quotient to two places. The model rounds the exact quotient to the nearest cent, halves to even. Results that differ only through float representation error are not modelled.
- `Aggregate.Total`: the sum is exact in cents. `round(total, 2)` is therefore the identity and is not modelled separately.
- `print` is output plumbing. `PrintResults` returns the lines instead; the blank line from `print()` is the empty string. The inner loop collects a county's sale lines before they are appended, which yields the same sequence of lines.
- `main` (liquor_sales.py:80-84) is not a member of its own. Its composition is stated by `Pipeline.ListedCountiesComeFromRows`.
- `Text.Upper`: it covers the ASCII letters only. Python's `str.upper` also maps other Unicode letters, some to more than one character.
- `Aggregate.Summarize`: its contract does not state that the entries follow the loader's insertion order. The function body keeps that order, and `Report.RankedCounties` states how ties follow the order of the entries.
