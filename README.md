# Offset pagination for a NestJS/TypeORM endpoint, modelled in Dafny

The repository provides `paginator()`, which serves one page of an entity listing.
It takes a paging request (`page`, `limit`, `sortBy`, `orderBy` and the request path) and a
per-endpoint configuration (`sortableColumns`, `defaultSortBy`, `defaultOrderBy`,
`defaultLimit`, `maxLimit`, `where`). From them it:

1. fills in page, limit and direction with JavaScript `||` defaulting;
2. refuses a configuration without sortable columns (`ServiceUnavailableException`);
3. resolves the sort column against the whitelist;
4. asks the store once for `limit` rows at offset `(page - 1) * limit`, plus the count of
   all matching rows;
5. computes the page count as a ceiling and clamps the page into range;
6. returns the rows, the metadata and the first/previous/next/last links.

The model is purely functional, as the source is: one straight-line function whose only
effect is the awaited fetch. The fetch becomes a parameter
`store: StoreQuery<F> -> Result<Fetched<T>, E>`. `Paginate` applies it to exactly one
`StoreQuery`, and only after the configuration has been accepted. A failed fetch is passed
on unchanged as `FetchFailed(cause)`, as a rejected `getManyAndCount()` propagates out of the
awaiting function.

Files:

- `wrappers.dfy`: `Option` and `Result`.
- `arithmetic.dfy`: multiplication and division facts used by the page arithmetic.
- `decimal.dfy`: decimal rendering of integers (JavaScript's number-to-string conversion
  for integral values of magnitude below 10^21, used in the links), with its parser and
  round-trip lemmas.
- `paginator.dfy`: the data model and every step of `paginator()`.
- `paginator_properties.dfy`: all-inputs properties of the store query, page count, clamping,
  metadata and links.
- `paginator_examples.dfy`: the scenarios of `src/__test__/paginator.test.ts`, stated over a
  five-row store.

Edge cases where the code's behaviour may surprise a reader; the model follows the code:

- A negative `limit` is not filtered out. `query.limit || config.defaultLimit || 20`
  discards only absent values and 0, so the effective limit is never 0 but may be negative.
  The model covers that case as JavaScript computes it: `TotalPages` is the ceiling of
  the real quotient for every non-zero limit. The properties that assume a positive
  limit say so.
- There is no link to the current page. The envelope has `firstPage`, `previousPage`,
  `nextPage` and `lastPage` only.
- With an empty store the page is 1 and the page count is 0. Of the links, only `lastPage`
  is present, and it points to page 0 (`EmptyResult`).
- `maxLimit` is accepted but never read. The comment on the field at src/paginator.ts:29
  says it defaults to 100, but no code applies a default or caps the limit with it
  (`MaxLimitIgnored`).

## Model

| member | source | states |
|---|---|---|
| `Paginator.EffectivePage` | src/paginator.ts:40 | the page is the query's page unless absent or 0, else 1; it is never 0 and may lie outside the valid range |
| `Paginator.EffectiveLimit` | src/paginator.ts:41 | the limit is the query's, else the configured default, else 20, skipping absent and 0 at each step; never 0, and positive when no supplied value is negative |
| `Paginator.EffectiveOrderBy` | src/paginator.ts:42 | the direction is the query's, else the configured default, else ASC |
| `Paginator.Find` | src/paginator.ts:49 | `find` returns a value exactly when the column is in the list, and the value is that column |
| `Paginator.IsEntityKey` | src/paginator.ts:45-50 | a column is a key exactly when it is non-empty and in the whitelist |
| `Paginator.ResolveSortBy` | src/paginator.ts:55-62 | the sort column is always whitelisted; precedence is the requested column if given and whitelisted, then the default if given and whitelisted, then the first sortable column |
| `Paginator.Normalize` | src/paginator.ts:40-62 | normalisation fails exactly when there are no sortable columns; otherwise the sort column is whitelisted and the limit is non-zero |
| `Paginator.StoreQueryFor` | src/paginator.ts:64-69 | the store query takes `limit` rows, orders by the resolved column and direction and carries the configured filter; for a page of at least 1 and a positive limit the offset is non-negative and exactly `page - 1` whole pages |
| `Paginator.TotalPages` | src/paginator.ts:71-72 | the page count is the ceiling of `totalItems / limit`, for either sign of the limit |
| `Paginator.ClampPage` | src/paginator.ts:74-75 | the reported page is at least 1 and at most `totalPages` when that is at least 1; an in-range page is unchanged; a page beyond the last becomes the last; otherwise the page becomes 1 |
| `Paginator.LinksFor` | src/paginator.ts:91-96 | for a page of at least 1 the first-page and previous-page links are present together; a next-page link comes with a last-page link; page 1 of 1 has no links |
| `Paginator.Assemble` | src/paginator.ts:71-97 | the data is the fetched rows unchanged, and the reported page lies in `[1, max(totalPages, 1)]` |
| `Paginator.Paginate` | src/paginator.ts:35-100 | the call fails with the configuration error exactly when there are no sortable columns, whatever the query; on success the sort column is whitelisted and the limit non-zero |
| `PaginatorProperties.PaginateAsksStore` | src/paginator.ts:64-70 | the store is asked for `limit` rows at offset `(page - 1) * limit`, using the unclamped page, the resolved sort column and direction, and the configured filter; a failed fetch is passed on unchanged, otherwise data and total are the store's answer |
| `PaginatorProperties.TotalPagesIsCeiling` | src/paginator.ts:71-72 | any integer satisfying the ceiling bounds equals `TotalPages`, so the page count is the ceiling |
| `PaginatorProperties.TotalPagesPositiveLimit` | src/paginator.ts:71-72 | for a positive limit: the exact quotient when there is no remainder; never negative; zero exactly when there are no items |
| `PaginatorProperties.TotalPagesOfEmpty` | src/paginator.ts:71-72 | no items means zero pages, for any non-zero limit |
| `PaginatorProperties.PaginateMeta` | src/paginator.ts:74-90 | the metadata reports the ceiling page count and the requested page clamped into range; an in-range page is reported unchanged |
| `PaginatorProperties.PaginateLinks` | src/paginator.ts:77-96 | each link is present exactly under its rule against the reported page and page count; a present link is the path plus the shared query string, carrying that link's page |
| `Paginator.LinkOptions` | src/paginator.ts:77 | the options part shared by all links; `OptionsCarryLimit` states its layout and that the limit reads back from it |
| `PaginatorProperties.OptionsCarryLimit` | src/paginator.ts:77 | the options are the `&limit=` key, the limit's numeral and the sort part, and the numeral parses back to the limit |
| `Paginator.BuildLink` | src/paginator.ts:79 | a link to page `p`; `LinkCarriesPage` states its layout and that the page reads back from it |
| `PaginatorProperties.LinkCarriesPage` | src/paginator.ts:77-79 | a link is the path with `?page=`, the page's numeral and the options, and the numeral parses back to the page number |
| `PaginatorProperties.BuildLinkInjective` | src/paginator.ts:77-79 | links that differ only in their page number are equal only if the page numbers are equal |
| `PaginatorProperties.LinksAreConsistent` | src/paginator.ts:92-95 | first-page and previous-page links are present together; a next-page link implies a last-page link; no link leads to the reported page |
| `PaginatorProperties.LinkTargetsInRange` | src/paginator.ts:92-95 | when there is at least one page, the previous and next links lead to pages within `[1, totalPages]`, and a last-page link appears only when the reported page is before the last |
| `PaginatorProperties.EmptyResult` | src/paginator.ts:71-95 | an empty store gives page 1 of 0 pages, with only the last-page link, which leads to page 0 |
| `PaginatorProperties.SinglePageHasNoLinks` | src/paginator.ts:92-95 | a single page of results carries no navigation links |
| `PaginatorProperties.MaxLimitIgnored` | src/paginator.ts:29 | the configured maximum limit has no effect on the result |
| `Decimal.NatToString` | src/paginator.ts:79 | a natural number is rendered as a non-empty string of digits with no leading zero |
| `Decimal.IntToString` | src/paginator.ts:79 | an integer is rendered as a canonical numeral: a minus sign exactly when it is negative, never `-0`, and no leading zero except in `0` itself |
| `Decimal.IntToStringRoundTrip` | src/paginator.ts:79 | parsing the rendering of any integer gives back the integer |
| `Decimal.NatToStringRoundTrip` | src/paginator.ts:79 | parsing the rendered digits gives back the number |
| `Decimal.DigitsRoundTrip` | src/paginator.ts:79 | every digit string without a leading zero is the rendering of its own value |
| `Decimal.NumeralRoundTrip` | src/paginator.ts:79 | every canonical numeral is the rendering of the integer it denotes, so `IntToString` produces exactly the canonical numerals |
| `Decimal.IntToStringInjective` | src/paginator.ts:77-79 | different integers are rendered as different strings |
| `PaginatorExamples.PageBeyondLastIsClamped` | src/__test__/paginator.test.ts:29-45 | page 30 of five rows at two per page is reported as page 3 of 3; the requested, whitelisted column `id` wins over the configured default |
| `PaginatorExamples.InvalidDefaultSortByFallsBack` | src/paginator.ts:56-62 | the same request without a column: the non-whitelisted default `dateCreated` is skipped and the first sortable column `id` is used |
| `PaginatorExamples.FailedFetchIsPassedOn` | src/paginator.ts:64-70 | a store whose fetch fails makes the call fail with that same failure |
| `PaginatorExamples.DefaultsToFirstSortableColumn` | src/__test__/paginator.test.ts:47-59 | page 0 counts as absent, giving page 1 at the default limit 20, sorted by the first sortable column |
| `PaginatorExamples.DefaultSortByWhenWhitelisted` | src/__test__/paginator.test.ts:61-73 | with no requested column, the whitelisted default `dateCreated` is used |
| `PaginatorExamples.NoSortableColumnsFails` | src/__test__/paginator.test.ts:75-88 | an empty whitelist fails |
| `PaginatorExamples.MiddlePageLinks` | src/paginator.ts:92-95 | page 2 of five rows at two per page has all four links: page 1 for first and previous, page 3 for next and last |

## Left out

- Request extraction (src/decorator.ts): reading the query string, `parseInt` and building
  the path from protocol, host and URL are framework plumbing. The model takes the
  extracted `PaginatorQuery` as input. An unparsable number (NaN) is falsy in JavaScript,
  so it is represented as `None`. The adapter's ASC/DESC whitelist is why `OrderBy` has
  exactly two values.
- The TypeORM query builder and `getManyAndCount`: the store is a function parameter.
  It is assumed to return a non-negative count of all rows matching the filter. What it
  returns for a negative offset or size is not modelled. The `where` conditions are passed
  through uninterpreted.
- `async`/`Promise` scheduling: the model is a single evaluation. A rejected fetch is
  modelled as a `Failure` from the store, which `Paginate` returns as `FetchFailed`.
  Also left out are the `ServiceUnavailableException` object, modelled as
  `Misconfigured(ServiceUnavailable)`, and the class identity given by
  `Object.assign(new Paginated(), ...)`.
- JavaScript numbers are IEEE doubles; the model uses unbounded integers. Precision loss
  beyond 2^53, the exponent notation JavaScript uses to render numbers from 10^21 on, and
  the sign of a negative zero (rendered "0" either way) are not modelled.
- `PaginatorExamples.FiveRows` stands in for the five-row SQLite table of the tests; it
  slices an ordered list and is not a model of the store.
