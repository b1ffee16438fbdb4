/**
 * The recipe list page: its URL search parameters and their defaults, the page
 * index sent to the API, the list query key, and the handling of a
 * `'jwt expired'` error body.
 */
module RecipesPage {
  import opened Wrappers
  import opened AuthStore
  import HttpClient
  import AppLayout

  /** The error-body value this page treats as an expired session. */
  const JwtExpired := "jwt expired"

  /**
   * The list route's search parameters: the optional `page` and `recipeName`,
   * and whatever other parameters the URL carries.
   */
  datatype SearchParams = SearchParams(page: Option<int>, recipeName: Option<string>, others: map<string, string>)

  /** `const { page = 1 } = ...`. */
  function CurrentPage(search: SearchParams): int {
    search.page.GetOr(1)
  }

  /** `const { recipeName = '' } = ...`. */
  function CurrentRecipeName(search: SearchParams): string {
    search.recipeName.GetOr("")
  }

  /** `Math.max(page - 1, 0)`: the zero-based page asked of the API. */
  function PageIndex(page: int): (i: nat)
    ensures page >= 1 ==> i + 1 == page
    ensures page <= 1 ==> i == 0
  {
    if page - 1 > 0 then page - 1 else 0
  }

  /** The list query's cache key `['recipes', pageIndex, recipeName]`. */
  datatype QueryKey = RecipesKey(pageIndex: nat, recipeName: string)

  function ListQueryKey(search: SearchParams): (k: QueryKey)
    ensures k.pageIndex == PageIndex(CurrentPage(search))
    ensures k.recipeName == CurrentRecipeName(search)
  {
    RecipesKey(PageIndex(CurrentPage(search)), CurrentRecipeName(search))
  }

  /** A URL without search parameters asks for page index 0 of the unfiltered list. */
  lemma DefaultsGiveFirstUnfilteredPage(others: map<string, string>)
    ensures ListQueryKey(SearchParams(None, None, others)) == RecipesKey(0, "")
  {
  }

  /** Two searches share a cache entry exactly when they agree on page index and name. */
  lemma QueryKeyDistinguishes(a: SearchParams, b: SearchParams)
    ensures ListQueryKey(a) == ListQueryKey(b) <==>
      PageIndex(CurrentPage(a)) == PageIndex(CurrentPage(b)) && CurrentRecipeName(a) == CurrentRecipeName(b)
  {
  }

  /** Every page number up to 1, and a missing page, map to page index 0. */
  lemma LowPagesShareIndexZero(page: int)
    requires page <= 1
    ensures PageIndex(page) == 0 == PageIndex(CurrentPage(SearchParams(None, None, map[])))
  {
  }

  /** The list page's session-expiry test: an axios error whose body has `error == 'jwt expired'`. */
  predicate IsJwtExpired(err: HttpClient.HttpError) {
    err.AxiosError? && err.response.Some? && err.response.value.bodyError == Some(JwtExpired)
  }

  /** The auth state after the page has rendered with query error `err`. */
  function AfterQueryError(s: AuthState, err: HttpClient.HttpError): (r: AuthState)
    ensures IsJwtExpired(err) ==> r == Initial()
    ensures !IsJwtExpired(err) ==> r == s
  {
    if IsJwtExpired(err) then Clear(s) else s
  }

  /** The expiry handling runs on every render while the error stands; repeating it changes nothing. */
  lemma QueryErrorHandlingIdempotent(s: AuthState, err: HttpClient.HttpError)
    ensures AfterQueryError(AfterQueryError(s, err), err) == AfterQueryError(s, err)
  {
  }

  /**
   * The render-time error branch: a `'jwt expired'` body clears the store and
   * navigates to sign-in; any other error leaves the store alone.
   */
  method HandleQueryError(store: Store, err: HttpClient.HttpError) returns (navigateTo: Option<string>)
    modifies store
    ensures store.State() == AfterQueryError(old(store.State()), err)
    ensures IsJwtExpired(err) ==> navigateTo == Some(AppLayout.SignInRoute)
    ensures !IsJwtExpired(err) ==> navigateTo == None
  {
    navigateTo := None;
    if err.AxiosError? && err.response.Some? {
      if err.response.value.bodyError == Some(JwtExpired) {
        store.ClearMemoryUser();
        navigateTo := Some(AppLayout.SignInRoute);
      }
    }
  }

  /**
   * The two session-expiry tests disagree: a 401 without the body string clears
   * only through the layout, and the body string under another status clears
   * only through this page.
   */
  lemma ExpiryTestsDiverge()
    ensures var e := HttpClient.AxiosError(Some(HttpClient.ErrorResponse(401, None)));
      AppLayout.IsUnauthorized(e) && !IsJwtExpired(e)
    ensures var e := HttpClient.AxiosError(Some(HttpClient.ErrorResponse(500, Some(JwtExpired))));
      IsJwtExpired(e) && !AppLayout.IsUnauthorized(e)
  {
  }

  /** When either test fires, the interceptor followed by the page's check leaves the store cleared. */
  lemma EitherExpiryTestClears(s: AuthState, err: HttpClient.HttpError)
    requires AppLayout.IsUnauthorized(err) || IsJwtExpired(err)
    ensures AfterQueryError(AppLayout.AfterResponseError(s, err), err) == Initial()
  {
  }
}
