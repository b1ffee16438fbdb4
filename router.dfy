/**
 * The browser router's guards: every loader decides from the token in durable
 * storage, and the recipes route's middleware and loader also install the token
 * as the API's default Authorization header.
 */
module Router {
  import opened Wrappers
  import opened Strings
  import AuthContext
  import HttpClient

  const SignInPath := "/auth/sign-in"
  const RecipesPath := "/recipes"
  const IndexPath := "/"

  /** `localStorage.getItem('@recipeez-0.0.1:token')`. */
  function GetToken(storage: map<string, string>): (t: Option<string>)
    ensures t.Some? <==> AuthContext.TokenKey in storage
    ensures t.Some? ==> t.value == storage[AuthContext.TokenKey]
  {
    if AuthContext.TokenKey in storage then Some(storage[AuthContext.TokenKey]) else None
  }

  /** The guards' test `if (token)`: an empty stored string counts as no token. */
  predicate HasToken(storage: map<string, string>) {
    Truthy(GetToken(storage))
  }

  /** What a loader returns: data for the route to render with. */
  datatype LoaderData = NoData | TokenData(token: string)

  /** A loader's outcome: a (thrown or returned) redirect, or rendering the route. */
  datatype LoaderResult = Redirect(to: string) | Render(data: LoaderData)

  /** `indexLoader`: always redirects, to the list when signed in and to sign-in otherwise. */
  function IndexLoader(storage: map<string, string>): (r: LoaderResult)
    ensures r.Redirect?
    ensures HasToken(storage) ==> r.to == RecipesPath
    ensures !HasToken(storage) ==> r.to == SignInPath
  {
    if HasToken(storage) then Redirect(RecipesPath) else Redirect(SignInPath)
  }

  /** `signInLoader`: a signed-in visitor is sent to the list; otherwise sign-in renders. */
  function SignInLoader(storage: map<string, string>): (r: LoaderResult)
    ensures HasToken(storage) ==> r == Redirect(RecipesPath)
    ensures !HasToken(storage) ==> r == Render(NoData)
  {
    if HasToken(storage) then Redirect(RecipesPath) else Render(NoData)
  }

  /** The decision of `recipesLoader`: without a token, redirect; with one, render with `{ token }`. */
  function RecipesDecision(storage: map<string, string>): (r: LoaderResult)
    ensures !HasToken(storage) ==> r == Redirect(SignInPath)
    ensures HasToken(storage) ==> r == Render(TokenData(storage[AuthContext.TokenKey]))
  {
    var token := GetToken(storage);
    if !Truthy(token) then Redirect(SignInPath) else Render(TokenData(token.value))
  }

  /** `recipesLoader`: the decision above, and the token installed as the default header. */
  method RecipesLoader(storage: map<string, string>, api: HttpClient.Api) returns (r: LoaderResult)
    modifies api`defaultAuthorization
    ensures r == RecipesDecision(storage)
    ensures HasToken(storage) ==>
      api.defaultAuthorization == Some(HttpClient.BearerValue(storage[AuthContext.TokenKey]))
    ensures !HasToken(storage) ==> api.defaultAuthorization == old(api.defaultAuthorization)
  {
    var token := GetToken(storage);
    if !Truthy(token) {
      return Redirect(SignInPath);
    }
    api.SetDefaultAuthorization(HttpClient.BearerValue(token.value));
    r := Render(TokenData(token.value));
  }

  /**
   * `authMiddleware`: without a token it redirects before calling `next()`;
   * otherwise it installs the header and calls `next()` exactly once.
   */
  method AuthMiddleware(storage: map<string, string>, api: HttpClient.Api)
    returns (redirect: Option<string>, nextCalls: nat)
    modifies api`defaultAuthorization
    ensures !HasToken(storage) ==> redirect == Some(SignInPath) && nextCalls == 0
    ensures !HasToken(storage) ==> api.defaultAuthorization == old(api.defaultAuthorization)
    ensures HasToken(storage) ==> redirect == None && nextCalls == 1
    ensures HasToken(storage) ==>
      api.defaultAuthorization == Some(HttpClient.BearerValue(storage[AuthContext.TokenKey]))
  {
    var token := GetToken(storage);
    if !Truthy(token) {
      return Some(SignInPath), 0;
    }
    api.SetDefaultAuthorization(HttpClient.BearerValue(token.value));
    redirect, nextCalls := None, 1;
  }

  /** The route table: three routes and a catch-all. Paths are compared exactly. */
  datatype Route = IndexRoute | SignInRoute | RecipesRoute | CatchAll

  function MatchRoute(path: string): (route: Route)
    ensures route == IndexRoute <==> path == IndexPath
    ensures route == SignInRoute <==> path == SignInPath
    ensures route == RecipesRoute <==> path == RecipesPath
  {
    if path == IndexPath then IndexRoute
    else if path == SignInPath then SignInRoute
    else if path == RecipesPath then RecipesRoute
    else CatchAll
  }

  /** The outcome of navigating to `path` with the given storage. */
  function Outcome(path: string, storage: map<string, string>): LoaderResult {
    match MatchRoute(path)
    case IndexRoute => IndexLoader(storage)
    case SignInRoute => SignInLoader(storage)
    case RecipesRoute => RecipesDecision(storage)
    case CatchAll => Redirect(SignInPath)
  }

  /** Navigating: the matched route's middleware (recipes only), then, if it continues, its loader. */
  method Navigate(path: string, storage: map<string, string>, api: HttpClient.Api) returns (r: LoaderResult)
    modifies api`defaultAuthorization
    ensures r == Outcome(path, storage)
    ensures path == RecipesPath && HasToken(storage) ==>
      api.defaultAuthorization == Some(HttpClient.BearerValue(storage[AuthContext.TokenKey]))
    ensures !(path == RecipesPath && HasToken(storage)) ==>
      api.defaultAuthorization == old(api.defaultAuthorization)
  {
    match MatchRoute(path)
    case IndexRoute =>
      r := IndexLoader(storage);
    case SignInRoute =>
      r := SignInLoader(storage);
    case RecipesRoute =>
      var redirect, nextCalls := AuthMiddleware(storage, api);
      if redirect.Some? {
        r := Redirect(redirect.value);
      } else {
        r := RecipesLoader(storage, api);
      }
    case CatchAll =>
      r := Redirect(SignInPath);
  }

  /** Sign-in and the recipe list render under complementary token conditions. */
  lemma SignInAndRecipesComplementary(storage: map<string, string>)
    ensures Outcome(SignInPath, storage).Render? <==> !Outcome(RecipesPath, storage).Render?
  {
  }

  /** A page renders only where its guard allows; every other navigation redirects. */
  lemma RenderOnlyWhereGuardAllows(path: string, storage: map<string, string>)
    ensures Outcome(path, storage).Render? <==>
      (path == SignInPath && !HasToken(storage)) || (path == RecipesPath && HasToken(storage))
  {
  }

  /** An empty stored token is treated exactly like a missing one. */
  lemma EmptyTokenIsAbsent(path: string, storage: map<string, string>)
    ensures Outcome(path, storage[AuthContext.TokenKey := ""]) == Outcome(path, storage - {AuthContext.TokenKey})
  {
  }

  /** Any path outside the route table redirects to sign-in, whatever the storage holds. */
  lemma UnmatchedPathRedirects(path: string, storage: map<string, string>)
    requires path != IndexPath && path != SignInPath && path != RecipesPath
    ensures Outcome(path, storage) == Redirect(SignInPath)
  {
  }
}
