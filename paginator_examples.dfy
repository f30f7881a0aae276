/** The scenarios of the repository's own test suite, over a store holding five rows. */
module PaginatorExamples {
  import opened Wrappers
  import opened Paginator
  import Decimal

  /** A store of five rows numbered 1 to 5, ordered by `id`, that answers a query with
      the requested slice and the count of all five. */
  function FiveRows(sq: StoreQuery<()>): Result<Fetched<int>, string> {
    var rows := [1, 2, 3, 4, 5];
    var from := if sq.skip < 0 then 0 else if sq.skip > |rows| then |rows| else sq.skip;
    var to := if sq.take < 0 || from + sq.take > |rows| then |rows| else from + sq.take;
    Success(Fetched(rows[from..to], |rows|))
  }

  /** Page 30 of five rows, two per page, is clamped to the last page, 3; the requested
      column `id` is whitelisted and wins over the configured default. */
  lemma PageBeyondLastIsClamped()
    ensures var q := PaginatorQuery(Some(30), Some(2), Some("id"), None, "");
      var c := PaginatorConfig(["id"], None, Some("dateCreated"), None, Some(1), None);
      var r := Paginate(q, c, FiveRows);
      && r.Success?
      && r.value.meta == Meta(2, 5, 3, 3, "id", ASC)
      && r.value.data == []
      && r.value.links.nextPage.None? && r.value.links.lastPage.None?
  {
  }

  /** The same request without a column: the configured default `dateCreated` is not
      whitelisted, so the first sortable column `id` is used. */
  lemma InvalidDefaultSortByFallsBack()
    ensures var q := PaginatorQuery(Some(30), Some(2), None, None, "");
      var c := PaginatorConfig(["id"], None, Some("dateCreated"), None, Some(1), None);
      var r := Paginate(q, c, FiveRows);
      r.Success? && r.value.meta.sortBy == "id" && r.value.meta.currentPage == 3
  {
  }

  /** A store whose fetch fails: the failure is passed on unchanged. */
  lemma FailedFetchIsPassedOn()
    ensures var q := PaginatorQuery(None, None, None, None, "");
      var c := PaginatorConfig(["id"], None, None, None, None, None);
      var store := (sq: StoreQuery<()>) => Failure("connection lost");
      Paginate<int, (), string>(q, c, store) == Failure(FetchFailed("connection lost"))
  {
  }

  /** Page 0 counts as absent, so page 1 is served with the default limit of 20, sorted
      by the first sortable column. */
  lemma DefaultsToFirstSortableColumn()
    ensures var q := PaginatorQuery(Some(0), None, None, None, "");
      var c := PaginatorConfig(["id"], None, None, None, None, None);
      var r := Paginate(q, c, FiveRows);
      && r.Success?
      && r.value.meta == Meta(20, 5, 1, 1, "id", ASC)
      && r.value.data == [1, 2, 3, 4, 5]
  {
  }

  /** Without a requested column, a whitelisted default sort column is used. */
  lemma DefaultSortByWhenWhitelisted()
    ensures var q := PaginatorQuery(None, None, None, None, "");
      var c := PaginatorConfig(["id", "dateCreated"], None, Some("dateCreated"), None, None, None);
      var r := Paginate(q, c, FiveRows);
      r.Success? && r.value.meta.sortBy == "dateCreated"
  {
  }

  /** No sortable columns: the call fails. */
  lemma NoSortableColumnsFails()
    ensures var q := PaginatorQuery(None, None, None, None, "");
      var c: PaginatorConfig<()> := PaginatorConfig([], None, None, None, None, None);
      Paginate(q, c, FiveRows) == Failure(Misconfigured(ServiceUnavailable))
  {
  }

  lemma SmallNumerals()
    ensures Decimal.IntToString(1) == "1" && Decimal.IntToString(2) == "2" && Decimal.IntToString(3) == "3"
  {
  }

  lemma TwoPerPageOptions()
    ensures LinkOptions(2, "id", ASC) == "&limit=2&sortBy=id&orderBy=ASC"
  {
  }

  /** The links to pages 1 and 3 of the two-per-page listing sorted ascending by `id`. */
  lemma TwoPerPageLinks()
    ensures BuildLink("", 1, 2, "id", ASC) == "?page=" + "1" + "&limit=2&sortBy=id&orderBy=ASC"
    ensures BuildLink("", 3, 2, "id", ASC) == "?page=" + "3" + "&limit=2&sortBy=id&orderBy=ASC"
  {
    SmallNumerals();
    TwoPerPageOptions();
  }

  /** Page 2 of five rows, two per page: all four links, with page 3 both next and last. */
  lemma MiddlePageLinks()
    ensures var q := PaginatorQuery(Some(2), Some(2), None, None, "");
      var c := PaginatorConfig(["id"], None, None, None, None, None);
      var r := Paginate(q, c, FiveRows);
      var options := "&limit=2&sortBy=id&orderBy=ASC";
      && r.Success?
      && r.value.data == [3, 4]
      && r.value.links == Links(
           Some("?page=" + "1" + options),
           Some("?page=" + "1" + options),
           Some("?page=" + "3" + options),
           Some("?page=" + "3" + options))
  {
    var q := PaginatorQuery(Some(2), Some(2), None, None, "");
    var c := PaginatorConfig(["id"], None, None, None, None, None);
    var req := PageRequest(2, 2, "id", ASC, "");
    assert Normalize(q, c) == Success(req);
    assert StoreQueryFor(req, c.where) == StoreQuery(2, 2, "id", ASC, None);
    assert [1, 2, 3, 4, 5][2..4] == [3, 4];
    assert FiveRows(StoreQuery(2, 2, "id", ASC, None)) == Success(Fetched([3, 4], 5));
    assert TotalPages(5, 2) == 3;
    assert Paginate(q, c, FiveRows) == Success(Assemble(req, Fetched([3, 4], 5)));
    assert Assemble(req, Fetched([3, 4], 5)).links == LinksFor("", 2, 3, 2, "id", ASC);
    TwoPerPageLinks();
  }
}
