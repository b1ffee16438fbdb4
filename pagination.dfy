/**
 * The pagination bar of the recipe list: the page count, the label, the four
 * buttons' disabled conditions and the search parameters each handler
 * navigates to.
 */
module Pagination {
  import opened Wrappers
  import opened RecipesPage
  import opened RecipeTypes

  /** `Math.ceil(totalCount / perPage)` on integers: the least page count that holds every recipe. */
  function TotalPages(totalCount: nat, perPage: int): (n: nat)
    requires perPage > 0
    ensures totalCount <= n * perPage
    ensures n == 0 || (n - 1) * perPage < totalCount
    ensures n == 0 <==> totalCount == 0
  {
    var q := totalCount / perPage;
    var m := totalCount % perPage;
    assert totalCount == q * perPage + m && 0 <= m < perPage;
    assert q >= 0;
    if m == 0 then
      assert q * perPage - perPage == (q - 1) * perPage;
      q
    else
      assert (q + 1) * perPage == q * perPage + perPage;
      assert q * perPage >= 0;
      q + 1
  }

  /** `Página {pageIndex + 1} de {totalPages}`: the two numbers the label shows. */
  function PageLabel(pageIndex: int, totalPages: int): (int, int) {
    (pageIndex + 1, totalPages)
  }

  /** First and previous are disabled on page index 0. */
  predicate BackDisabled(pageIndex: int) {
    pageIndex == 0
  }

  /** Next and last are disabled when the label would show the page count. */
  predicate ForwardDisabled(pageIndex: int, totalPages: int) {
    pageIndex + 1 == totalPages
  }

  /** `{ ...oldSearch, page: p }`. */
  function WithPage(search: SearchParams, p: int): (r: SearchParams)
    ensures r.page == Some(p)
    ensures r.recipeName == search.recipeName && r.others == search.others
  {
    search.(page := Some(p))
  }

  /** `handlePreviousPage`: nothing on page index 0; otherwise `page ? page - 1 : 0`. */
  function PreviousTarget(pageIndex: int, search: SearchParams): (r: Option<SearchParams>)
    ensures r.None? <==> pageIndex == 0
    ensures r.Some? ==> r.value.recipeName == search.recipeName && r.value.others == search.others
    ensures r.Some? && CurrentPage(search) != 0 ==> r.value.page == Some(CurrentPage(search) - 1)
    ensures r.Some? && CurrentPage(search) == 0 ==> r.value.page == Some(0)
  {
    if pageIndex == 0 then None
    else
      var page := CurrentPage(search);
      Some(WithPage(search, if page != 0 then page - 1 else 0))
  }

  /** `handleNextPage` as written: nothing when `pageIndex === totalPages`; otherwise `page ? page + 1 : 1`. */
  function NextTarget(pageIndex: int, totalPages: int, search: SearchParams): (r: Option<SearchParams>)
    ensures r.None? <==> pageIndex == totalPages
    ensures r.Some? ==> r.value.recipeName == search.recipeName && r.value.others == search.others
    ensures r.Some? && CurrentPage(search) != 0 ==> r.value.page == Some(CurrentPage(search) + 1)
    ensures r.Some? && CurrentPage(search) == 0 ==> r.value.page == Some(1)
  {
    if pageIndex == totalPages then None
    else
      var page := CurrentPage(search);
      Some(WithPage(search, if page != 0 then page + 1 else 1))
  }

  /** The next handler with the guard evidently intended: no navigation once the last page is reached. */
  function BoundedNextTarget(pageIndex: int, totalPages: int, search: SearchParams): (r: Option<SearchParams>)
    ensures r.None? <==> pageIndex + 1 >= totalPages
    ensures r.Some? ==> r.value.recipeName == search.recipeName && r.value.others == search.others
    ensures r.Some? ==> r.value.page.Some?
    ensures r.Some? && CurrentPage(search) == pageIndex + 1 ==> r.value.page.value <= totalPages
  {
    if pageIndex + 1 >= totalPages then None
    else
      var page := CurrentPage(search);
      Some(WithPage(search, if page != 0 then page + 1 else 1))
  }

  /** `handleFirstPage`. */
  function FirstTarget(search: SearchParams): (r: SearchParams)
    ensures r.page == Some(1)
    ensures ListQueryKey(r).pageIndex == 0
    ensures r.recipeName == search.recipeName && r.others == search.others
  {
    WithPage(search, 1)
  }

  /** `handleLastPage`. */
  function LastTarget(totalPages: nat, search: SearchParams): (r: SearchParams)
    ensures r.page == Some(totalPages)
    ensures totalPages >= 1 ==> ListQueryKey(r).pageIndex + 1 == totalPages
    ensures totalPages == 0 ==> ListQueryKey(r).pageIndex == 0
    ensures r.recipeName == search.recipeName && r.others == search.others
  {
    WithPage(search, totalPages)
  }

  /**
   * The bar's page count from its props, which the list page takes from the
   * server's `meta` (`totalPages` of the component).
   */
  function PagesOf(meta: PageMeta): nat
    requires meta.perPage > 0 && meta.totalCount >= 0
  {
    TotalPages(meta.totalCount, meta.perPage)
  }

  /**
   * The bar shows the server's `meta.pageIndex`, not the index the page asked
   * for. When the server echoes the requested index, the label's first number
   * is the page in the URL, whenever that page is at least 1.
   */
  lemma LabelShowsRequestedPage(search: SearchParams, meta: PageMeta)
    requires CurrentPage(search) >= 1
    requires meta.perPage > 0 && meta.totalCount >= 0
    requires meta.pageIndex == ListQueryKey(search).pageIndex
    ensures PageLabel(meta.pageIndex, PagesOf(meta)) == (CurrentPage(search), PagesOf(meta))
  {
  }

  /** With the requested index echoed back, previous asks for the page index one lower, from page 2 on. */
  lemma PreviousStepsBackOnePage(search: SearchParams, meta: PageMeta)
    requires CurrentPage(search) >= 2
    requires meta.pageIndex == ListQueryKey(search).pageIndex
    ensures var r := PreviousTarget(meta.pageIndex, search);
      r.Some? && ListQueryKey(r.value) == RecipesKey(meta.pageIndex - 1, CurrentRecipeName(search))
  {
  }

  /**
   * With the requested index echoed back, next asks for the page index one
   * higher, keeping the filter, from any page before the last.
   */
  lemma NextStepsForwardOnePage(search: SearchParams, meta: PageMeta)
    requires CurrentPage(search) >= 1
    requires meta.perPage > 0 && meta.totalCount >= 0
    requires meta.pageIndex == ListQueryKey(search).pageIndex
    requires meta.pageIndex + 1 < PagesOf(meta)
    ensures !ForwardDisabled(meta.pageIndex, PagesOf(meta))
    ensures var r := NextTarget(meta.pageIndex, PagesOf(meta), search);
      r.Some? && ListQueryKey(r.value) == RecipesKey(meta.pageIndex + 1, CurrentRecipeName(search))
  {
  }

  /** On the last page, next and last are disabled; first and previous are not, unless it is also the first. */
  lemma ButtonsOnLastPage(pageIndex: nat, totalPages: nat)
    requires pageIndex + 1 == totalPages
    ensures ForwardDisabled(pageIndex, totalPages)
    ensures BackDisabled(pageIndex) <==> totalPages == 1
  {
  }

  /**
   * An empty list has no pages: the label reads "1 de 0", next stays enabled but
   * its guard stops it, and last navigates to page 0, which asks for index 0 again.
   */
  lemma EmptyListPagination(perPage: int, search: SearchParams)
    requires perPage > 0
    ensures TotalPages(0, perPage) == 0
    ensures PageLabel(0, TotalPages(0, perPage)) == (1, 0)
    ensures !ForwardDisabled(0, TotalPages(0, perPage))
    ensures NextTarget(0, TotalPages(0, perPage), search).None?
    ensures ListQueryKey(LastTarget(TotalPages(0, perPage), search)).pageIndex == 0
  {
  }

  /**
   * As written, next is enabled past the last page and keeps going: the URL
   * asks for page 5 (index 4) of a search with 25 recipes at 10 per page, and
   * the server echoes index 4 with 3 pages' worth of recipes; next then goes
   * to page 6.
   */
  lemma NextOvershootsLastPage()
    ensures var search := SearchParams(Some(5), None, map[]);
      var meta := PageMeta(4, 10, 25);
      meta.pageIndex == ListQueryKey(search).pageIndex && PagesOf(meta) == 3 &&
      !ForwardDisabled(meta.pageIndex, PagesOf(meta)) &&
      NextTarget(meta.pageIndex, PagesOf(meta), search) == Some(SearchParams(Some(6), None, map[]))
  {
    assert TotalPages(25, 10) == 3;
  }

  /** The corrected guard agrees with the written one on every page before the last. */
  lemma BoundedNextAgreesInRange(pageIndex: int, totalPages: int, search: SearchParams)
    requires 0 <= pageIndex && pageIndex + 1 < totalPages
    ensures BoundedNextTarget(pageIndex, totalPages, search) == NextTarget(pageIndex, totalPages, search)
  {
  }
}
