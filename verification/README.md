# Yelp business exporter, modelled in Dafny

This project models the two CSV exporters of `YelpBusiness` in `business.py`:

- `get_all_business_details` writes one row of 23 columns per business;
- `get_all_business_reviews` writes one row of 8 columns per business, holding its reviews.

Both exporters work the same way:

1. They ask the search endpoint once for `total`.
2. They cap `records` at 1000 and choose the page size `search_limit`.
3. They walk the search results page by page while `offset < min(records, total)`.
4. For every index of a page they fetch the business and flatten it into a row.
5. They write a header line before the first row.

## Modules

- `Json`: the detail and review documents, as records whose fields may be missing.
- `Strings`: the comma-to-semicolon replacement and the rendering of list fields.
- `BusinessRows` and `ReviewRows`: row flattening. Each has a pure function (`FlattenBusiness`, `FlattenReviews`) and the imperative statements of the source, proved equal to it.
- `Paging`: the page-size rule and the page count.
- `Export`: the exporters.
  - `Run` is the specification of one export run.
  - `Items` and `Pages` are its inner and outer loops, written as recursion over a loop body.
  - `DetailStep` and `ReviewStep` are the two loop bodies, one index at a time.
  - `ExportDetails` and `ExportReviews`, with their page and page-loop methods, are the `while` loops of the source. Each is proved equal to the specification.
- `ExportProperties`: what a run guarantees. The page-loop lemmas are proved for any loop body. Then they are applied to the two exporters.

## How the source is represented

- The HTTP endpoints are inputs, in the `Api` record.
  - A detail or review request that raises is `None`.
  - Python's `str()` of a list of leaves is the parameter `listRepr`, a function of the leaves' `str()` texts.
- An uncaught Python exception ends the run with `Crashed`. The lines written before it stay in the output. The exceptions modelled:
  - `min(records, None)`, when the search has no `total`;
  - `businesses[j]` on a missing or short page;
  - `hours[0]` on an empty list;
  - reading a `hours_type` that was never bound.

## Quirks kept as the code has them

- A business without `hours` assigns `hour_type`, so `hours_type` keeps the previous business's value, or is unbound.
- The results of `strip` are discarded, so the category columns keep their trailing `"; "`.
- `category_title` is filled from `alias`.
- The details exporter rebinds `location`, so every later page is searched with the last business's location record.
- The inner loop stops only once `offset + j > total`. A short last page is therefore indexed past its end (`ShortLastPageCrashes`).
- Rows are not capped at `records`: whole pages are written. One would expect at most min(`records`, `total`) rows, so 75 rows for `records` = 75 and `total` = 120. The code requests offsets 0 and 50 only, and writes up to 100 rows. The model follows the code (`RowsNotCappedAtRecords`, `RunRowBound`).

## Model

| member | source | states |
|---|---|---|
| Paging.PageSize | business.py:130-136 | `records` is capped at 1000. `search_limit` is `records` when at most 50, else 50. With at least one record, 1 <= `search_limit` <= min(50, records). |
| Paging.PageCountIsCeiling | business.py:141-217 | The offset loop `while offset < bound: offset += step` runs exactly ceil((bound - offset) / step) times. |
| Strings.ReplaceCommas | business.py:164 | Every comma becomes a semicolon and every other character stays in place. The length is kept and no comma remains. |
| Strings.ReplaceCommasIdempotent | business.py:164 | Replacing twice gives the same string as replacing once. |
| BusinessRows.AliasConcatShape | business.py:172-180 | The category string is empty exactly when there are no categories. Otherwise it still ends in `"; "`, because the `strip` result is thrown away. It has at least two characters per category. |
| BusinessRows.AliasConcatAppend | business.py:176-178 | Accumulating over two category lists in turn concatenates their strings. |
| BusinessRows.BuildCategoryColumns | business.py:172-180 | The category loop leaves `category_alias` and `category_title` equal. Both hold every alias followed by `"; "`, in list order, or "" when there is no `categories` field. |
| BusinessRows.FlattenBusiness | business.py:156-206 | Flattening fails exactly on `hours == []` (empty hours) or on missing `hours` with `hours_type` never bound. It takes the hours from the first entry, or keeps the previous business's `hours_type`. Each scalar column is the field, or "" when it is missing (`.get(key, "")`). Latitude and longitude are the coordinates' fields, city, state, zip code, country and cross streets the location's; all are "" when the sub-record is missing. The address is the three address lines joined by spaces. Photos and transactions are the list's rendering with every comma replaced, so comma-free and of the same length. |
| BusinessRows.FlattenDetails | business.py:156-206 | The flattening statements compute exactly `FlattenBusiness`, failures included. |
| BusinessRows.BusinessRow.Cells | business.py:206 | A business row has one cell per column of the 23-column header, and its first cell is the id. |
| ReviewRows.Column | business.py:279-287 | A review column has one entry per review, in review order, each the review's field or "". |
| ReviewRows.CollectReviewColumns | business.py:279-287 | The review loop builds four lists of equal length, one entry per review, in order. |
| ReviewRows.FlattenReviews | business.py:265-294 | A review row carries the id, the name, url and review total (or "" when missing), and four list columns. Each is the rendering of that field of every review, in review order, with every comma replaced, so comma-free and of the same length. |
| ReviewRows.FlattenReviewSet | business.py:265-294 | The statements that build a review row compute exactly `FlattenReviews`. |
| ReviewRows.ReviewRow.Cells | business.py:294 | A review row has one cell per column of the 8-column header, and its first cell is the id. |
| Export.Row.Cells | business.py:206-212 | Every row written has as many cells as its exporter's header, with the id first. |
| Export.DetailsItemPolicy | business.py:146-212 | For one index of the details exporter: a missing page or an index past its end raises. A failed detail request is skipped, and only then. A fetched business whose flattening raises ends the run with that error. Otherwise its flattened row is written, with its id, and `hours_type` and the search location become that business's. The page never ends early on a failed request. |
| Export.ReviewsItemPolicy | business.py:257-299 | For one index of the review exporter: a missing page or an index past its end raises. The page ends exactly when the detail or the review request fails. Otherwise the row flattened from both answers is written, with its id, and location and `hours_type` stay as they were. Nothing is skipped and nothing else raises. |
| Export.DetailsPage | business.py:144-216 | The inner loop of the details exporter over one page computes exactly the specified inner loop `Items`, written rows, header flag, `hours_type`, location and exception included. |
| Export.ReviewsPage | business.py:255-303 | The inner loop of the review exporter over one page computes exactly `Items`. |
| Export.DetailsPages | business.py:130-217 | The page loop of the details exporter computes exactly the specified page loop `Pages`. |
| Export.ReviewsPages | business.py:241-304 | The page loop of the review exporter computes exactly `Pages`. |
| Export.ExportDetails | business.py:109-217 | `get_all_business_details` produces exactly the lines, search requests and outcome of `Run(Details, ...)`. |
| Export.ExportReviews | business.py:220-304 | `get_all_business_reviews` produces exactly the lines, search requests and outcome of `Run(Reviews, ...)`. |
| ExportProperties.ItemsKeepQueries | business.py:145-216 | An inner loop sends no search request. |
| ExportProperties.EmitWellFormed | business.py:209-212 | Writing a row keeps the output well formed: the header is first and appears once, and rows follow it. |
| ExportProperties.EmitCount | business.py:209-212 | Writing a row adds exactly one data row, with or without the header. |
| ExportProperties.ItemsWellFormed | business.py:145-216 | An inner loop whose body writes only fetched rows keeps the output well formed. |
| ExportProperties.PagesWellFormed | business.py:141-217 | So does the page loop. |
| ExportProperties.RunOutputShape | business.py:139-212 | The header is written once, as the first line, immediately before the first row, and only if a row is written. Every row is of the run's kind and belongs to a business whose detail request (and, for reviews, review request) succeeded. |
| ExportProperties.PagesExtendQueries | business.py:141-142 | The page loop only appends search requests. The first of them uses the current search location. |
| ExportProperties.PagesCount | business.py:141-217 | The page loop sends at most `PageCount` requests, and exactly that many when it finishes. |
| ExportProperties.PagesOffsets | business.py:141-217 | The page loop requests `search_limit` results at offsets `offset`, `offset + search_limit`, ..., each below the bound. |
| ExportProperties.ItemsRowBound | business.py:145-216 | One page writes at most one row per remaining index, however the body behaves. |
| ExportProperties.PagesRowBound | business.py:141-217 | The page loop writes at most `search_limit` rows per request it sends. |
| ExportProperties.PagesRowProduct | business.py:141-217 | The same bound, as the product pages × `search_limit`. |
| ExportProperties.RunFirstQuery | business.py:125-141 | A run first searches with limit 1 at offset 0 for `total`. Without `total` it raises at once, having written nothing. |
| ExportProperties.RunPageCount | business.py:141-217 | After that, a run sends at most ceil(min(records, total) / `search_limit`) page requests (`PageCount`), and exactly that many when it finishes. |
| ExportProperties.RunOffsets | business.py:141-142 | The k-th page request asks for `term` and `search_limit` results at offset (k - 1) × `search_limit`, below min(records, total). |
| ExportProperties.RunRowBound | business.py:145-216 | A run writes at most (page requests) × `search_limit` rows. |
| ExportProperties.RunRowsBounded | business.py:130-217 | A run writes at most ceil(min(records, total) / `search_limit`) × `search_limit` rows. So it never writes more than 1000 rows, the most the exporters are meant to fetch, and never more than `records` when 1 <= records <= 50. |
| ExportProperties.RunOnePage | business.py:130-142 | With 1 <= records <= 50 and `total` >= 1, exactly one page is requested, at offset 0 with the caller's location, for `records` results. At most `records` rows are written. |
| ExportProperties.ItemsKeepLocation | business.py:256-303 | An inner loop whose body keeps the location keeps the location, `hours_type` and the requests. |
| ExportProperties.PagesKeepLocation | business.py:252-304 | Such a page loop searches every page with the location it started with. |
| ExportProperties.RunReviewsKeepLocation | business.py:252-253 | The review exporter searches every page with the caller's location. |
| ExportProperties.FailurePolicy | business.py:148-275 | On a failed detail request the details exporter goes on with the next index, writing nothing. On a failed detail or review request the review exporter ends the page, writing nothing. |
| ExportProperties.ItemsWriteAll | business.py:145-216 | When every index of a page writes and the page ends at or before `total`, the inner loop writes `search_limit` rows. |
| ExportProperties.PagesWriteAll | business.py:141-217 | When every page is written in full, the page loop finishes with `search_limit` rows per page requested. |
| ExportProperties.RowsNotCappedAtRecords | business.py:141-217 | With `records` = 75, `total` = 100, every search page full and every detail and review request succeeding (with nonempty hours for the details exporter), a run finishes with 100 rows, more than `records`. |
| ExportProperties.WriteThenRaise | business.py:145-216 | A first page that writes at index 0 and raises at index 1 ends the run right there, with that row written. |
| ExportProperties.ShortLastPageCrashes | business.py:145-216 | With `total` = 1, `records` = 2 and a search page holding the one business, a run writes the header and that business's row. It then raises at index 1, because the stop check `offset + j > total` comes one index too late. |

## Left out

- The HTTP client (business.py:24-107): the bearer token, URL quoting and `requests` calls. The search, detail and review endpoints are the `Api` input.
- An exception raised by a search request, or by decoding its answer, is not modelled. Only a missing `businesses` or `total` field is.
- A business id that is missing from the search answer (a `KeyError` on `['id']`) is not modelled: a page is a sequence of ids.
- JSON `null` in place of a list or sub-record (for example `"hours": null`, which the source would index) is not modelled. A missing field is `None`; a `null` leaf is `Scalar.Null`.
- `csv.DictWriter` quoting, escaping and the `|` delimiter: a line is a header or a row of cells.
- `listRepr`: list renderings are a function of the leaves' `str()` texts, so leaves that print alike render alike inside a list. Python prints list elements with `repr()`, which tells `'5'` from `5` and `'None'` from `None`; the model does not. No property here depends on the list rendering beyond its use as given. `str()` of a leaf is the leaf's given rendering.
- The printed diagnostics after a failed request (business.py:151-152, 261-262, 272-273).
- `run.py` (which opens the file and calls an exporter) and `config.py` (constants) are not part of this model.
