# Transaction analytics: query and aggregation core

A Dafny model of the request handlers in `server-main/routers.js` that read
the transaction store: the paginated, searchable listing (`/transactions`),
the monthly financial summary (`/staticks`), the ten-band price histogram
(`/pricerange`), the category distribution (`/piechart`) and the combined
monthly report (`/`). The store is a sequence of immutable records whose
fields follow the schema in `server-main/Product_Module.js`. Every handler
is a pure function from its query parameters and the store to a `Result`:
a JSON body, or the error the handler answers with (400 "Provide month" or
500 "Internal server error").

Modules, leaf first:

- `Wrappers` (`wrappers.dfy`): `Option` and a failure-compatible `Result`.
- `Records` (`records.dfy`): the `Record`, with `sold` as `Option<bool>`
  (true, false or absent) and `saleMonth` as the month of `dateOfSale`
  (None when the record has no date); the store (`Online` with its records
  and text index, or `Offline`); the numeric reading of a query value; the
  error type with its status and message.
- `Seqs` (`seqs.dfy`): `find(query)` as `Filter` and `countDocuments(query)`
  as `Count`, with partition and concatenation lemmas.
- `Sorting` (`sorting.dfy`): `.sort({key: -1})` as a descending insertion
  sort, proved ordered and a permutation; each insertion is proved to
  place the new element ahead of equal keys.
- `Listing` (`listing.dfy`): search resolution, skip and limit, the
  reported total.
- `Month` (`month.dfy`): the month presence check and month query shared by
  the monthly handlers.
- `Statistics`, `PriceRange`, `PieChart` (`statistics.dfy`,
  `price_range.dfy`, `pie_chart.dfy`): the three monthly views.
- `Composite` (`composite.dfy`): the combined report, and the handler as
  written (see Findings).

A page below 1 is outside the model. The `month` parameter is any
non-empty string, read as a number. The combined report as written is not
all-or-nothing (see Findings).

## Model

| member | source | states |
|---|---|---|
| `Listing.Resolve` | server-main/routers.js:39-57 | Every search token falls in exactly one branch: empty gives match-all, unsorted, limit 10; non-empty numeric gives `price <= value`, descending price, limit 4; anything else gives the text search on the token, descending score, limit 10 |
| `Listing.Ranked` | server-main/routers.js:61-62 | There are as many ordered matches as `countDocuments` counts for the same query, non-increasing in the sort key when the plan sorts |
| `Listing.RankedContents` | server-main/routers.js:61-62 | The ordered matches are a permutation of the records the query selects: a record is listed exactly when it is stored and selected |
| `Listing.Window` | server-main/routers.js:63-64 | Skip then limit keeps `min(limit, n - skip)` consecutive elements starting at the skip, and none past the end |
| `Listing.PageOf` | server-main/routers.js:61-64 | A page holds `min(limit, matches - (page-1)*10)` records (none past the end); every listed record is stored and selected by the query; sorted plans give sorted pages; without a search the page is a window of the store itself |
| `Listing.PageRanks` | server-main/routers.js:61-64 | Slot i of page `page` holds the ordered match at position `(page-1)*10 + i` |
| `Listing.Transactions` | server-main/routers.js:34-76 | The listing fails exactly when the store fails; a page holds `min(limit, matches - skip)` records (none past the end), never more than the branch's limit, each a stored record the query selects; a numeric search reports a total of 4, every other search the true number of matches, independent of skip and limit; a failure is a 500 |
| `Listing.TransactionsPage` | server-main/routers.js:61-66 | With the store up, the listed products are the ordered matches from position `(page-1)*10` on, in order |
| `Listing.NumericListing` | server-main/routers.js:43-67 | A numeric search lists at most 4 records, each priced at or under the ceiling, in non-increasing price, and reports 4 |
| `Listing.TextListing` | server-main/routers.js:50-72 | A text search lists records the phrase matches, in non-increasing relevance score, and reports the number of matching records |
| `Listing.UnfilteredListing` | server-main/routers.js:59-72 | Without a search the page is the stored records from the skip on, up to 10, and the total is the number of stored records |
| `Listing.PagesStep` | server-main/routers.js:61-64 | Pages 1 to k are pages 1 to k-1 followed by the handler's own page k |
| `Listing.PagesTile` | server-main/routers.js:61-64 | When the limit equals the page size, pages 1 to k list the first 10k ordered matches, each once and in order |
| `Listing.NumericPagesSkipRanks` | server-main/routers.js:44-64 | With limit 4 and a skip of 10 per page, a page lists only ranks whose position in their block of ten is below 4, so the 5th to 10th matches of every block appear on no page |
| `Sorting.Insert` | server-main/routers.js:62 | Inserting into a descending sequence keeps it descending and adds exactly the new element, which lands in front of the old first element or behind it |
| `Sorting.InsertPlaces` | server-main/routers.js:62 | The new element lands behind every element with a strictly larger key and in front of all others, so it precedes the equal-keyed elements already sorted |
| `Sorting.SortDesc` | server-main/routers.js:62 | The sorted result is non-increasing in the key and a permutation of the input |
| `Seqs.Filter` | server-main/routers.js:61 | Every selected record satisfies the filter, and there are no more of them than stored records |
| `Seqs.FilterMembers` | server-main/routers.js:61 | A record is selected exactly when it is stored and satisfies the filter |
| `Seqs.FilterMultiplicity` | server-main/routers.js:61 | A selected record occurs as often as it is stored; a rejected one not at all |
| `Seqs.Count` | server-main/routers.js:59 | The count is at most the input length and is zero exactly when no element satisfies the filter |
| `Seqs.CountIsFilterLength` | server-main/routers.js:59-61 | `countDocuments(query)` equals the number of records `find(query)` returns |
| `Seqs.CountComplement` | server-main/routers.js:95-96 | Two complementary filters count every record exactly once between them |
| `Month.Fetch` | server-main/routers.js:82-89 | A missing or empty month is an InvalidRequest whatever the store's state; otherwise a failing store is a StoreFailure, and success returns exactly the stored records whose sale month equals the parsed month, each as often as it is stored; failures carry status 400 and 500 respectively |
| `Statistics.TotalPrice` | server-main/routers.js:91-94 | The sum of prices starts at 0 and is non-negative when every price is |
| `Statistics.TotalPriceAppend` | server-main/routers.js:91-94 | The price sum of two batches is the sum of their price sums |
| `Statistics.Summarize` | server-main/routers.js:91-96 | `soldItem` counts the records whose `sold` is exactly true, `notSoldItem` counts false and absent alike, together they count every record; no records give a zero summary |
| `Statistics.SummarizeAppend` | server-main/routers.js:91-96 | The summary of two batches together is the field-wise sum of their summaries |
| `Statistics.Staticks` | server-main/routers.js:80-102 | A missing month is a 400 before the store is read; success exactly when the store answers; the totals are those of the month's records and sold plus not sold is their number |
| `Statistics.MayExample` | server-main/routers.js:91-102 | A sold record of price 100 and an unsold one of price 200 in May give total 300, one sold, one not sold |
| `PriceRange.Band` | server-main/routers.js:134-146 | Every price falls in exactly one of the ten right-closed bands `[..,100]`, `(100,200]`, ..., `(800,900]`, `(900,..)` |
| `PriceRange.Histogram` | server-main/routers.js:134-146 | Ten counts, one per band; that count i is the number of records whose price is in band i, zero for every band when there are no records, is stated by `HistogramCounts` |
| `PriceRange.HistogramCounts` | server-main/routers.js:121-146 | Count i of the histogram is the number of records whose price is in band i |
| `PriceRange.HistogramTotal` | server-main/routers.js:134-146 | The ten counts add up to the number of records: every record increments exactly one band |
| `PriceRange.LabelsDistinct` | server-main/routers.js:121-132 | The ten band labels are pairwise different |
| `PriceRange.BarChart` | server-main/routers.js:121-132 | The chart's keys are exactly the ten labels, zero counts included, each mapped to its band's count |
| `PriceRange.ChartSize` | server-main/routers.js:121-132 | The chart has exactly ten keys |
| `PriceRange.ChartReadBack` | server-main/routers.js:121-132 | Reading the chart back label by label gives the band counts again |
| `PriceRange.Pricerange` | server-main/routers.js:110-148 | A missing month is a 400; success exactly when the store answers; on success there are exactly ten keys, all ten labels, each holding the number of the month's records in its band |
| `PriceRange.PricerangeTotal` | server-main/routers.js:110-148 | The ten counts of a successful chart add up to the month's record count |
| `PriceRange.HistogramExample` | server-main/routers.js:134-146 | Prices 50, 150 and 950 count once in bands 0, 1 and 9 and nowhere else |
| `PriceRange.MarchExample` | server-main/routers.js:110-148 | Three March records priced 50, 150 and 950 give 1 in "0 - 100", "101-200" and "901-above" and 0 in the other seven bands |
| `PieChart.Categories` | server-main/routers.js:167-175 | A category is a key exactly when at least one record has it, so no key has a zero count, and each key maps to the number of records in that category |
| `PieChart.CategoriesKeys` | server-main/routers.js:167-175 | The keys are exactly the categories that occur among the records |
| `PieChart.CategoriesTotal` | server-main/routers.js:167-175 | The category counts add up to the number of records |
| `PieChart.Piechart` | server-main/routers.js:156-177 | A missing month is a 400; on success a category is a key exactly when some record of the month has it, with a count of at least 1 equal to its number of records, and the counts add up to the month's record count |
| `Composite.JoinAll` | server-main/routers.js:191-201 | The join succeeds exactly when all three sub-results do, carrying each under its key; otherwise it fails with one of the failures' errors and no partial report |
| `Composite.Overview` | server-main/routers.js:185-208 | A missing month is a 400; otherwise the report succeeds exactly when all three monthly handlers succeed for the same month, and `staticks`, `barChat`, `pieChar` are their results |
| `Composite.ReportConsistent` | server-main/routers.js:191-208 | In a report, sold plus not sold, the ten band counts and the category counts all add up to the same number: the month's record count |
| `Composite.OverviewAsWritten` | server-main/routers.js:185-208 | The handler as written fails only for a missing month, whatever its sub-endpoints answer |
| `Composite.AsWrittenBodies` | server-main/routers.js:191-208 | In the report as written, a view is an error body exactly when its sub-endpoint failed, and that body carries "Internal server error" |
| `Composite.AsWrittenEmbedsErrors` | server-main/routers.js:191-208 | For every present month, with the store unreachable, the all-or-nothing report fails with a StoreFailure while the handler as written succeeds with three "Internal server error" bodies |
| `Composite.AsWrittenAgreesOnSuccess` | server-main/routers.js:191-208 | When every sub-endpoint succeeds, the handler as written carries the same three views as the all-or-nothing report |

## Left out

- The ingest handler `/fetching` (routers.js:8-31): a network download and a bulk insert, pure I/O.
- `index.js` and `db.js`: Express wiring, CORS, environment configuration and the process-wide database connection.
- `Product_Module.js` is used only as the field list of `Record`; the schema's type coercion and the text index declaration are not modelled.
- Text search matching and relevance scoring: the store's text index is an abstract `TextIndex` (a match predicate and a score function supplied with the store); its case-insensitivity lives inside it.
- The month of `dateOfSale`: records carry an abstract `saleMonth`; dates, years and time zones are not modelled.
- JavaScript number reading: `isNaN`/`parseFloat` are one abstract `NumberParser`, used for both the search token and the month. Their quirks (a blank token counting as numeric with a NaN ceiling, hexadecimal, trailing text accepted by `parseFloat`) are not modelled.
- Listing.Transactions: requires `page >= 1`; an absent or non-positive page gives the store a NaN or negative skip, whose outcome depends on the driver. An absent `search` is modelled as the empty token, which the handler treats the same way. The `month` parameter it reads is unused there. A text search is modelled as answered by the store; `server-main/Product_Module.js:14` calls `productSchema.indexes(...)`, which lists indexes rather than declaring one, so unless the text index is created elsewhere the `$text` query fails and a text search answers 500 with the store up; that store-side failure is not modelled.
- Listing.Ranked: ties in the sort key keep store order by construction: `Sorting.InsertPlaces` proves one insertion places the new element ahead of equal keys, but stability of the whole sort is not stated as a lemma; the store leaves the order of ties unspecified. An unsorted query returns records in store order.
- Prices are `real`: the floating-point rounding of the price sum and NaN prices (which fall in no band in the source) are not modelled.
- PieChart.Categories: plain string keys; JavaScript object-key quirks (keys such as `constructor` that an object already has, a missing category becoming the key "undefined") are not modelled.
- Composite.JoinAll: when several sub-results fail, it reports the first in key order; `Promise.all` reports whichever rejection happens first in time.
- A store failure is modelled for the store as a whole (`Offline`), so the three sub-queries of one report fail together; `JoinAll` is stated for independent failures.
- Transport: the HTTP self-calls of the combined report are direct calls; a refused connection, status and header plumbing, `console.log` and the concurrency of `Promise.all` are not modelled. JSON key order is not modelled either: a `map<string, nat>` has none, while `priceRanges` serialises in band order (server-main/routers.js:121-132) and `categories` in the order each category first occurs in the month's records (server-main/routers.js:167-175). The self-call URLs (server-main/routers.js:192, 195, 198) splice `month` in without encoding, so a month such as `%23` (a decoded `#`) reaches the sub-endpoints as an empty month; each answers 400 "Provide month" and that body is embedded in a 200 report. The model passes the month through unchanged, so `Composite.AsWrittenAgreesOnSuccess` and `Composite.AsWrittenBodies` hold only for months that survive the URL round trip.

## Findings

| source | as written | input that shows it | evidently intended | confidence | as-written member | corrected member |
|---|---|---|---|---|---|---|
| server-main/routers.js:191-208 | each sub-endpoint's response is read with `response.json()` whatever its status, so a 500 from `/staticks`, `/pricerange` or `/piechart` becomes a value in a 200 report | `GET /?month=7` with the store unreachable: each sub-endpoint answers 500 `{"message": "Internal server error"}`, and the report answers 200 with those three bodies under `staticks`, `barChat` and `pieChar` | the report fails as a whole when any sub-endpoint fails | medium; not executed | Composite.OverviewAsWritten | Composite.Overview |
