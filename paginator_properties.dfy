/** Properties of the paginator over all inputs: what the store is asked for, the page
    arithmetic, the reported metadata and the navigation links. */
module PaginatorProperties {
  import opened Wrappers
  import opened Decimal
  import opened Paginator
  import opened Arithmetic

  // ---------------------------------------------------------------------------
  // The store query

  /** The store is asked once, for `limit` rows at offset `(page - 1) * limit` where
      `page` is the requested page before clamping, ordered by the resolved sort column
      and direction and filtered by the configured conditions. A failed fetch is passed
      on unchanged; otherwise the data returned is the store's slice unchanged and the
      reported total is the store's count. */
  lemma PaginateAsksStore<T, F, E>(q: PaginatorQuery, c: PaginatorConfig<F>, store: StoreQuery<F> -> Result<Fetched<T>, E>)
    requires |c.sortableColumns| > 0
    ensures var limit := EffectiveLimit(q, c);
      var sortBy := ResolveSortBy(c.sortableColumns, q.sortBy, c.defaultSortBy);
      var sq := StoreQuery(limit, (EffectivePage(q) - 1) * limit, sortBy, EffectiveOrderBy(q, c), c.where);
      var r := Paginate(q, c, store);
      && (store(sq).Failure? ==> r == Failure(FetchFailed(store(sq).error)))
      && (store(sq).Success? ==>
            && r.Success?
            && r.value.data == store(sq).value.items
            && r.value.meta.totalItems == store(sq).value.totalItems
            && r.value.meta.itemsPerPage == limit
            && r.value.meta.sortBy == sortBy
            && r.value.meta.orderBy == EffectiveOrderBy(q, c))
  {
  }

  // ---------------------------------------------------------------------------
  // Page count

  /** `TotalPages` is the only integer satisfying the ceiling bounds, so it is the
      ceiling of `totalItems / limit`. */
  lemma TotalPagesIsCeiling(totalItems: nat, limit: int, n: int)
    requires limit != 0
    requires limit > 0 ==> (n - 1) * limit < totalItems <= n * limit
    requires limit < 0 ==> n * limit <= totalItems < (n - 1) * limit
    ensures n == TotalPages(totalItems, limit)
  {
    var t := TotalPages(totalItems, limit);
    if n < t {
      MulStep(n, t, limit);
      assert false;
    } else if n > t {
      MulStep(t, n, limit);
      assert false;
    }
  }

  /** With a positive limit and no remainder the page count is the exact quotient; an
      empty store has no pages, a non-empty one at least one. */
  lemma TotalPagesPositiveLimit(totalItems: nat, limit: int)
    requires limit > 0
    ensures totalItems % limit == 0 ==> TotalPages(totalItems, limit) == totalItems / limit
    ensures TotalPages(totalItems, limit) >= 0
    ensures TotalPages(totalItems, limit) == 0 <==> totalItems == 0
  {
    var n := TotalPages(totalItems, limit);
    if totalItems % limit == 0 {
      assert totalItems == (totalItems / limit) * limit;
      TotalPagesIsCeiling(totalItems, limit, totalItems / limit);
    }
  }

  /** An empty store gives no pages, whatever the (non-zero) limit. */
  lemma TotalPagesOfEmpty(limit: int)
    requires limit != 0
    ensures TotalPages(0, limit) == 0
  {
    TotalPagesIsCeiling(0, limit, 0);
  }

  // ---------------------------------------------------------------------------
  // Reported metadata

  /** The reported page is the requested page clamped into `[1, max(totalPages, 1)]`,
      and the page count is the ceiling computed from the store's count. */
  lemma PaginateMeta<T, F, E>(q: PaginatorQuery, c: PaginatorConfig<F>, store: StoreQuery<F> -> Result<Fetched<T>, E>)
    requires Paginate(q, c, store).Success?
    ensures var m := Paginate(q, c, store).value.meta;
      && m.totalPages == TotalPages(m.totalItems, m.itemsPerPage)
      && m.currentPage == ClampPage(EffectivePage(q), m.totalPages)
      && 1 <= m.currentPage
      && (m.totalPages >= 1 ==> m.currentPage <= m.totalPages)
      && (1 <= EffectivePage(q) <= m.totalPages ==> m.currentPage == EffectivePage(q))
  {
  }

  // ---------------------------------------------------------------------------
  // Links

  /** Each link is present exactly when its rule against the reported page and page
      count allows it, and then it is the shared query string with that link's page. */
  lemma PaginateLinks<T, F, E>(q: PaginatorQuery, c: PaginatorConfig<F>, store: StoreQuery<F> -> Result<Fetched<T>, E>)
    requires Paginate(q, c, store).Success?
    ensures var r := Paginate(q, c, store).value;
      var m := r.meta;
      && r.links.firstPage == (if m.currentPage == 1 then None else Some(LinkTo(q.path, 1, m)))
      && r.links.previousPage == (if m.currentPage - 1 < 1 then None else Some(LinkTo(q.path, m.currentPage - 1, m)))
      && r.links.nextPage == (if m.currentPage + 1 > m.totalPages then None else Some(LinkTo(q.path, m.currentPage + 1, m)))
      && r.links.lastPage == (if m.currentPage == m.totalPages then None else Some(LinkTo(q.path, m.totalPages, m)))
  {
    var req := Normalize(q, c).value;
    var fetched := store(StoreQueryFor(req, c.where)).value;
    assert Paginate(q, c, store).value == Assemble(req, fetched);
    AssembleLinks(req, fetched);
  }

  lemma AssembleLinks<T>(req: PageRequest, fetched: Fetched<T>)
    requires req.limit != 0
    ensures var r := Assemble(req, fetched);
      r.links == LinksFor(req.path, r.meta.currentPage, r.meta.totalPages, r.meta.itemsPerPage, r.meta.sortBy, r.meta.orderBy)
  {
  }

  /** The link to page `p` with the parameters reported in `m`. */
  function LinkTo(path: string, p: int, m: Meta): string {
    BuildLink(path, p, m.itemsPerPage, m.sortBy, m.orderBy)
  }

  /** The options carry the limit: they are the `&limit=` key, the limit's numeral and
      the sort part (`&sortBy=...&orderBy=...`), and the numeral reads back as the limit. */
  lemma OptionsCarryLimit(limit: int, sortBy: string, orderBy: OrderBy)
    ensures var options, rest := LinkOptions(limit, sortBy, orderBy), SortOptions(sortBy, orderBy);
      && 7 + |rest| < |options|
      && options[..7] == "&limit="
      && options[|options| - |rest|..] == rest
      && IsNumeral(options[7..|options| - |rest|])
      && IntValue(options[7..|options| - |rest|]) == limit
  {
    SplitThree("&limit=", IntToString(limit), SortOptions(sortBy, orderBy));
    IntToStringRoundTrip(limit);
  }

  /** A link carries its page: it is the path with the `?page=` key, then the page's
      numeral, then the options, and the numeral reads back as the page number. */
  lemma LinkCarriesPage(path: string, p: int, limit: int, sortBy: string, orderBy: OrderBy)
    ensures var link, head := BuildLink(path, p, limit, sortBy, orderBy), path + "?page=";
      var options := LinkOptions(limit, sortBy, orderBy);
      && |head| + |options| < |link|
      && link[..|head|] == head
      && link[|link| - |options|..] == options
      && IsNumeral(link[|head|..|link| - |options|])
      && IntValue(link[|head|..|link| - |options|]) == p
  {
    var head, options := path + "?page=", LinkOptions(limit, sortBy, orderBy);
    SplitThree(head, IntToString(p), options);
    IntToStringRoundTrip(p);
  }

  lemma SplitThree(a: string, b: string, c: string)
    ensures var s := a + b + c;
      s[..|a|] == a && s[|s| - |c|..] == c && s[|a|..|s| - |c|] == b
  {
  }

  /** Two links that differ only in their page number are equal only when the page
      numbers are. */
  lemma BuildLinkInjective(path: string, p: int, p': int, limit: int, sortBy: string, orderBy: OrderBy)
    requires BuildLink(path, p, limit, sortBy, orderBy) == BuildLink(path, p', limit, sortBy, orderBy)
    ensures p == p'
  {
    LinkCarriesPage(path, p, limit, sortBy, orderBy);
    LinkCarriesPage(path, p', limit, sortBy, orderBy);
  }

  /** The links fit together: the first-page and previous-page links appear together, a
      next-page link implies a last-page link, and no link leads to the reported page. */
  lemma LinksAreConsistent<T, F, E>(q: PaginatorQuery, c: PaginatorConfig<F>, store: StoreQuery<F> -> Result<Fetched<T>, E>)
    requires Paginate(q, c, store).Success?
    ensures var r := Paginate(q, c, store).value;
      var m := r.meta;
      var current := BuildLink(q.path, m.currentPage, m.itemsPerPage, m.sortBy, m.orderBy);
      && (r.links.firstPage.Some? <==> r.links.previousPage.Some?)
      && (r.links.nextPage.Some? ==> r.links.lastPage.Some?)
      && (r.links.firstPage.Some? ==> r.links.firstPage.value != current)
      && (r.links.previousPage.Some? ==> r.links.previousPage.value != current)
      && (r.links.nextPage.Some? ==> r.links.nextPage.value != current)
      && (r.links.lastPage.Some? ==> r.links.lastPage.value != current)
  {
    var r := Paginate(q, c, store).value;
    var m := r.meta;
    PaginateMeta(q, c, store);
    PaginateLinks(q, c, store);
    var current := BuildLink(q.path, m.currentPage, m.itemsPerPage, m.sortBy, m.orderBy);
    forall p | BuildLink(q.path, p, m.itemsPerPage, m.sortBy, m.orderBy) == current
      ensures p == m.currentPage
    {
      BuildLinkInjective(q.path, p, m.currentPage, m.itemsPerPage, m.sortBy, m.orderBy);
    }
  }

  /** When there is at least one page, every link leads to a page in `[1, totalPages]`. */
  lemma LinkTargetsInRange<T, F, E>(q: PaginatorQuery, c: PaginatorConfig<F>, store: StoreQuery<F> -> Result<Fetched<T>, E>)
    requires Paginate(q, c, store).Success?
    ensures var r := Paginate(q, c, store).value;
      var m := r.meta;
      m.totalPages >= 1 ==>
        && (r.links.previousPage.Some? ==> 1 <= m.currentPage - 1 <= m.totalPages)
        && (r.links.nextPage.Some? ==> 1 <= m.currentPage + 1 <= m.totalPages)
        && (r.links.lastPage.Some? ==> m.currentPage < m.totalPages)
  {
    PaginateMeta(q, c, store);
    PaginateLinks(q, c, store);
  }

  /** An empty store answer: page 1 of 0 pages, and of the links only the last-page
      link is present, leading to page 0. */
  lemma EmptyResult<T, F, E>(q: PaginatorQuery, c: PaginatorConfig<F>, store: StoreQuery<F> -> Result<Fetched<T>, E>)
    requires Paginate(q, c, store).Success?
    requires Paginate(q, c, store).value.meta.totalItems == 0
    ensures var r := Paginate(q, c, store).value;
      var m := r.meta;
      && m.currentPage == 1 && m.totalPages == 0
      && r.links.firstPage.None? && r.links.previousPage.None? && r.links.nextPage.None?
      && r.links.lastPage == Some(BuildLink(q.path, 0, m.itemsPerPage, m.sortBy, m.orderBy))
  {
    var m := Paginate(q, c, store).value.meta;
    PaginateMeta(q, c, store);
    TotalPagesOfEmpty(m.itemsPerPage);
    PaginateLinks(q, c, store);
  }

  /** A single page of results has no navigation links at all. */
  lemma SinglePageHasNoLinks<T, F, E>(q: PaginatorQuery, c: PaginatorConfig<F>, store: StoreQuery<F> -> Result<Fetched<T>, E>)
    requires Paginate(q, c, store).Success?
    requires Paginate(q, c, store).value.meta.totalPages == 1
    ensures Paginate(q, c, store).value.links == Links(None, None, None, None)
  {
    PaginateMeta(q, c, store);
    PaginateLinks(q, c, store);
  }

  // ---------------------------------------------------------------------------
  // Configuration

  /** The advisory maximum limit is never enforced: it has no effect on the result. */
  lemma MaxLimitIgnored<T, F, E>(q: PaginatorQuery, c: PaginatorConfig<F>, store: StoreQuery<F> -> Result<Fetched<T>, E>, maxLimit: Option<int>)
    ensures Paginate(q, c, store) == Paginate(q, c.(maxLimit := maxLimit), store)
  {
  }
}
