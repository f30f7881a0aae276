/** Offset pagination of one endpoint's store: the request is normalised against the
    endpoint's configuration, the sort column is checked against a whitelist, the store
    is asked for one bounded, sorted slice and the total count, the requested page is
    clamped into range and the response envelope with its navigation links is built. */
module Paginator {
  import opened Wrappers
  import opened Decimal
  import opened Arithmetic

  /** The two sort directions; the request adapter drops every other value. */
  datatype OrderBy = ASC | DESC

  function OrderByString(o: OrderBy): string {
    match o
    case ASC => "ASC"
    case DESC => "DESC"
  }

  /** The paging request handed over by the HTTP adapter. `None` stands for a field that
      is absent and also for one the adapter could not parse (a NaN number). */
  datatype PaginatorQuery = PaginatorQuery(
    page: Option<int>,
    limit: Option<int>,
    sortBy: Option<string>,
    orderBy: Option<OrderBy>,
    path: string)

  /** Per-endpoint configuration; `F` is the store's filter-condition type. */
  datatype PaginatorConfig<F> = PaginatorConfig(
    sortableColumns: seq<string>,
    maxLimit: Option<int>,
    defaultSortBy: Option<string>,
    defaultOrderBy: Option<OrderBy>,
    defaultLimit: Option<int>,
    where: Option<F>)

  /** The endpoint is misconfigured (surfaced as "service unavailable"). */
  datatype ConfigError = ServiceUnavailable

  /** Why a paginator call fails: the configuration is refused, or the store's fetch
      failed with `cause`, which is passed on unchanged. */
  datatype PaginatorError<E> = Misconfigured(reason: ConfigError) | FetchFailed(cause: E)

  /** The normalised request: effective page (before clamping), limit, sort column and
      direction, and the base path for the links. */
  datatype PageRequest = PageRequest(
    page: int,
    limit: int,
    sortBy: string,
    orderBy: OrderBy,
    path: string)

  /** What the store is asked for: `take` rows from offset `skip`, ordered by `sortBy` in
      direction `orderBy`, among the rows matching `where` (`None`: no conditions). */
  datatype StoreQuery<F> = StoreQuery(
    take: int,
    skip: int,
    sortBy: string,
    orderBy: OrderBy,
    where: Option<F>)

  /** The store's answer: the rows of the slice and the number of all matching rows. */
  datatype Fetched<T> = Fetched(items: seq<T>, totalItems: nat)

  datatype Meta = Meta(
    itemsPerPage: int,
    totalItems: nat,
    currentPage: int,
    totalPages: int,
    sortBy: string,
    orderBy: OrderBy)

  datatype Links = Links(
    firstPage: Option<string>,
    previousPage: Option<string>,
    nextPage: Option<string>,
    lastPage: Option<string>)

  datatype Paginated<T> = Paginated(data: seq<T>, meta: Meta, links: Links)

  // ---------------------------------------------------------------------------
  // Request normalisation

  /** JavaScript `a || fallback` on an optional number: absent and 0 are falsy. */
  function NumberOr(a: Option<int>, fallback: int): int {
    if a.Some? && a.value != 0 then a.value else fallback
  }

  /** JavaScript truthiness of an optional string: present and non-empty. */
  predicate StringGiven(s: Option<string>) {
    s.Some? && s.value != ""
  }

  /** The page asked for: the query's page unless absent or 0, else 1. It may be
      negative or beyond the last page; clamping comes later. */
  function EffectivePage(q: PaginatorQuery): (page: int)
    ensures page != 0
    ensures q.page.Some? && q.page.value != 0 ==> page == q.page.value
    ensures q.page.None? || q.page == Some(0) ==> page == 1
  {
    NumberOr(q.page, 1)
  }

  /** The page size: the query's limit, else the configured default, else 20; at each
      step absent and 0 count as missing, so the result is never 0. */
  function EffectiveLimit<F>(q: PaginatorQuery, c: PaginatorConfig<F>): (limit: int)
    ensures limit != 0
    ensures q.limit.Some? && q.limit.value != 0 ==> limit == q.limit.value
    ensures (q.limit.None? || q.limit == Some(0)) && c.defaultLimit.Some? && c.defaultLimit.value != 0
      ==> limit == c.defaultLimit.value
    ensures (q.limit.None? || q.limit == Some(0)) && (c.defaultLimit.None? || c.defaultLimit == Some(0))
      ==> limit == 20
    ensures (q.limit.None? || q.limit.value >= 0) && (c.defaultLimit.None? || c.defaultLimit.value >= 0)
      ==> limit > 0
  {
    NumberOr(q.limit, NumberOr(c.defaultLimit, 20))
  }

  /** The sort direction: the query's, else the configured default, else ascending. */
  function EffectiveOrderBy<F>(q: PaginatorQuery, c: PaginatorConfig<F>): (o: OrderBy)
    ensures q.orderBy.Some? ==> o == q.orderBy.value
    ensures q.orderBy.None? && c.defaultOrderBy.Some? ==> o == c.defaultOrderBy.value
    ensures q.orderBy.None? && c.defaultOrderBy.None? ==> o == ASC
  {
    match q.orderBy
    case Some(o) => o
    case None =>
      match c.defaultOrderBy
      case Some(o) => o
      case None => ASC
  }

  // ---------------------------------------------------------------------------
  // Sort-column whitelist

  /** JavaScript `columns.find(c => c === column)`: the first element equal to `column`. */
  function Find(columns: seq<string>, column: string): (r: Option<string>)
    ensures r.Some? <==> column in columns
    ensures r.Some? ==> r.value == column
  {
    if columns == [] then None
    else if columns[0] == column then Some(columns[0])
    else Find(columns[1..], column)
  }

  /** `!!columns.find(...)`: the found element converted to a boolean, so a found empty
      string would still read as "not a key". */
  function IsEntityKey(columns: seq<string>, column: string): (b: bool)
    ensures b <==> column != "" && column in columns
  {
    var found := Find(columns, column);
    found.Some? && found.value != ""
  }

  /** The column the store orders by, always one of the whitelisted columns: the
      query's column when given and whitelisted, else the configured default when given
      and whitelisted, else the first whitelisted column. */
  function ResolveSortBy(columns: seq<string>, requested: Option<string>, default: Option<string>): (sortBy: string)
    requires |columns| > 0
    ensures sortBy in columns
    ensures StringGiven(requested) && requested.value in columns ==> sortBy == requested.value
    ensures (!(StringGiven(requested) && requested.value in columns)
             && StringGiven(default) && default.value in columns) ==> sortBy == default.value
    ensures (!(StringGiven(requested) && requested.value in columns)
             && !(StringGiven(default) && default.value in columns)) ==> sortBy == columns[0]
  {
    if StringGiven(requested) && IsEntityKey(columns, requested.value) then requested.value
    else if StringGiven(default) && IsEntityKey(columns, default.value) then default.value
    else columns[0]
  }

  /** Normalises the request against the configuration; fails exactly when the
      configuration whitelists no column. */
  function Normalize<F>(q: PaginatorQuery, c: PaginatorConfig<F>): (r: Result<PageRequest, ConfigError>)
    ensures r.Failure? <==> |c.sortableColumns| == 0
    ensures r.Success? ==> r.value.sortBy in c.sortableColumns && r.value.limit != 0
  {
    var page := EffectivePage(q);
    var limit := EffectiveLimit(q, c);
    var orderBy := EffectiveOrderBy(q, c);
    if |c.sortableColumns| < 1 then Failure(ServiceUnavailable)
    else
      var sortBy := ResolveSortBy(c.sortableColumns, q.sortBy, c.defaultSortBy);
      Success(PageRequest(page, limit, sortBy, orderBy, q.path))
  }

  /** The one query sent to the store: `limit` rows at offset `(page - 1) * limit`, using
      the page as requested (before clamping). */
  function StoreQueryFor<F>(req: PageRequest, where: Option<F>): (sq: StoreQuery<F>)
    ensures sq.take == req.limit && sq.sortBy == req.sortBy && sq.orderBy == req.orderBy && sq.where == where
    ensures req.page >= 1 && req.limit > 0 ==>
      sq.skip >= 0 && sq.skip % sq.take == 0 && sq.skip / sq.take == req.page - 1
  {
    var sq := StoreQuery(req.limit, (req.page - 1) * req.limit, req.sortBy, req.orderBy, where);
    if req.page >= 1 && req.limit > 0 then
      MultipleDivision(req.page - 1, req.limit);
      sq
    else
      sq
  }

  // ---------------------------------------------------------------------------
  // Page arithmetic

  /** Number of pages: the ceiling of the real quotient `totalItems / limit`.
      The source divides as floating point and rounds up when the remainder is non-zero.
      Dafny's `/` rounds down for a positive divisor, so one is added then; for a negative
      divisor and a non-negative dividend it already rounds toward zero, which is the
      ceiling of the (non-positive) real quotient. */
  function TotalPages(totalItems: nat, limit: int): (n: int)
    requires limit != 0
    ensures limit > 0 ==> (n - 1) * limit < totalItems <= n * limit
    ensures limit < 0 ==> n * limit <= totalItems < (n - 1) * limit
  {
    var q := totalItems / limit;
    if totalItems % limit != 0 && limit > 0 then
      assert totalItems == q * limit + totalItems % limit;
      q + 1
    else
      assert totalItems == q * limit + totalItems % limit;
      q
  }

  /** The page reported: the requested page moved to the last page when beyond it, then
      to 1 when below 1. */
  function ClampPage(page: int, totalPages: int): (p: int)
    ensures p >= 1
    ensures totalPages >= 1 ==> p <= totalPages
    ensures 1 <= page <= totalPages ==> p == page
    ensures page > totalPages >= 1 ==> p == totalPages
    ensures page < 1 || totalPages < 1 ==> p == 1
  {
    var p := if page > totalPages then totalPages else page;
    if p < 1 then 1 else p
  }

  // ---------------------------------------------------------------------------
  // Links and the envelope

  /** The part of every link after the page number:
      `'&limit=' + limit + '&sortBy=' + sortBy + '&orderBy=' + orderBy`. */
  function LinkOptions(limit: int, sortBy: string, orderBy: OrderBy): string {
    "&limit=" + IntToString(limit) + SortOptions(sortBy, orderBy)
  }

  /** `'&sortBy=' + sortBy + '&orderBy=' + orderBy` */
  function SortOptions(sortBy: string, orderBy: OrderBy): string {
    "&sortBy=" + sortBy + "&orderBy=" + OrderByString(orderBy)
  }

  /** `path + '?page=' + p + options` */
  function BuildLink(path: string, p: int, limit: int, sortBy: string, orderBy: OrderBy): string {
    path + "?page=" + IntToString(p) + LinkOptions(limit, sortBy, orderBy)
  }

  /** The navigation links for the clamped page `page`; only the page number varies.
      For a page of at least 1 the first-page and previous-page links come together, and
      a next-page link always comes with a last-page link. */
  function LinksFor(path: string, page: int, totalPages: int, limit: int, sortBy: string, orderBy: OrderBy)
    : (links: Links)
    ensures page >= 1 ==> (links.firstPage.Some? <==> links.previousPage.Some?)
    ensures links.nextPage.Some? ==> links.lastPage.Some?
    ensures page == totalPages == 1 ==> links == Links(None, None, None, None)
  {
    Links(
      if page == 1 then None else Some(BuildLink(path, 1, limit, sortBy, orderBy)),
      if page - 1 < 1 then None else Some(BuildLink(path, page - 1, limit, sortBy, orderBy)),
      if page + 1 > totalPages then None else Some(BuildLink(path, page + 1, limit, sortBy, orderBy)),
      if page == totalPages then None else Some(BuildLink(path, totalPages, limit, sortBy, orderBy)))
  }

  /** Builds the envelope from the normalised request and the store's answer. */
  function Assemble<T>(req: PageRequest, fetched: Fetched<T>): (r: Paginated<T>)
    requires req.limit != 0
    ensures r.data == fetched.items
    ensures r.meta.currentPage >= 1
    ensures r.meta.totalPages >= 1 ==> r.meta.currentPage <= r.meta.totalPages
  {
    var totalPages := TotalPages(fetched.totalItems, req.limit);
    var page := ClampPage(req.page, totalPages);
    Paginated(
      fetched.items,
      Meta(req.limit, fetched.totalItems, page, totalPages, req.sortBy, req.orderBy),
      LinksFor(req.path, page, totalPages, req.limit, req.sortBy, req.orderBy))
  }

  /** The paginator: normalise, ask the store once, assemble. A configuration without
      sortable columns fails before the store is asked, whatever the query; a failed
      fetch is passed on unchanged. */
  function Paginate<T, F, E>(q: PaginatorQuery, c: PaginatorConfig<F>, store: StoreQuery<F> -> Result<Fetched<T>, E>)
    : (r: Result<Paginated<T>, PaginatorError<E>>)
    ensures (r.Failure? && r.error.Misconfigured?) <==> |c.sortableColumns| == 0
    ensures r.Failure? && r.error.Misconfigured? ==> r.error.reason == ServiceUnavailable
    ensures r.Success? ==> r.value.meta.sortBy in c.sortableColumns && r.value.meta.itemsPerPage != 0
  {
    match Normalize(q, c)
    case Failure(e) => Failure(Misconfigured(e))
    case Success(req) =>
      match store(StoreQueryFor(req, c.where))
      case Failure(e) => Failure(FetchFailed(e))
      case Success(fetched) => Success(Assemble(req, fetched))
  }
}
