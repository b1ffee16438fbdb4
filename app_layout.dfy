/**
 * The signed-in layout: the avatar's initials fallback, sign-out, the mount gate,
 * and the response interceptor that treats HTTP status 401 as an expired session.
 */
module AppLayout {
  import opened Wrappers
  import opened Strings
  import opened AuthStore
  import HttpClient

  /** The sign-in route that the layout and the list page navigate to. */
  const SignInRoute := "/sign-in"

  /** The fallback shown when no user is held (for "Recipeez"). */
  const AnonymousFallback := "RC"

  /** How many pieces are non-empty. */
  function CountNonEmpty(pieces: seq<string>): (n: nat)
    ensures n <= |pieces|
    decreases |pieces|
  {
    if pieces == [] then 0
    else (if pieces[0] == "" then 0 else 1) + CountNonEmpty(pieces[1..])
  }

  /**
   * `.map((letter) => letter[0]).join('')`: the first character of every piece;
   * an empty piece maps to `undefined`, which `join` renders as nothing.
   */
  function FirstLetters(pieces: seq<string>): (r: string)
    ensures |r| == CountNonEmpty(pieces)
    decreases |pieces|
  {
    if pieces == [] then ""
    else (if pieces[0] == "" then "" else [pieces[0][0]]) + FirstLetters(pieces[1..])
  }

  /** The first letters of a concatenation are the concatenation of the first letters. */
  lemma {:induction false} FirstLettersAppend(a: seq<string>, b: seq<string>)
    ensures FirstLetters(a + b) == FirstLetters(a) + FirstLetters(b)
    decreases |a|
  {
    if a != [] {
      assert (a + b)[1..] == a[1..] + b;
      FirstLettersAppend(a[1..], b);
    } else {
      assert a + b == b;
    }
  }

  /** Empty pieces (from doubled, leading or trailing spaces) contribute nothing. */
  lemma EmptyPieceContributesNothing(a: seq<string>, b: seq<string>)
    ensures FirstLetters(a + [""] + b) == FirstLetters(a + b)
  {
    FirstLettersAppend(a + [""], b);
    FirstLettersAppend(a, [""]);
    FirstLettersAppend(a, b);
  }

  /** For non-empty pieces the first letters are exactly one per piece, in order. */
  lemma {:induction false} FirstLettersOfWords(words: seq<string>)
    requires forall k :: 0 <= k < |words| ==> words[k] != ""
    ensures FirstLetters(words) == seq(|words|, k requires 0 <= k < |words| => words[k][0])
    decreases |words|
  {
    if words != [] {
      FirstLettersOfWords(words[1..]);
    }
  }

  /** The initials of a name: the first letters of its `' '`-separated pieces, upper-cased. */
  function Initials(name: string): string {
    ToUpper(FirstLetters(Split(name, ' ')))
  }

  /** `userNameFallback`: the user's initials, or `'RC'` when no user is held. */
  function UserNameFallback(user: Option<User>): (r: string)
    ensures user.None? ==> r == AnonymousFallback
    ensures user.Some? ==> |r| == CountNonEmpty(Split(user.value.name, ' '))
    ensures user.Some? ==> |r| <= |Split(user.value.name, ' ')|
    ensures user.Some? ==> forall k :: 0 <= k < |r| ==> !('a' <= r[k] <= 'z')
  {
    match user
    case None => AnonymousFallback
    case Some(u) => Initials(u.name)
  }

  /** A name made of space-free words joined by single spaces gives one capital per word. */
  lemma InitialsOfWords(words: seq<string>)
    requires |words| >= 1
    requires forall k :: 0 <= k < |words| ==> words[k] != "" && ' ' !in words[k]
    ensures Initials(Join(words, ' ')) == seq(|words|, k requires 0 <= k < |words| => ToUpperChar(words[k][0]))
  {
    SplitJoin(words, ' ');
    FirstLettersOfWords(words);
  }

  /** A name without spaces gives its first character, upper-cased. */
  lemma SingleWordFallback(u: User)
    requires u.name != "" && ' ' !in u.name
    ensures UserNameFallback(Some(u)) == [ToUpperChar(u.name[0])]
  {
    InitialsOfWords([u.name]);
  }

  /** A user whose name is empty gets an empty fallback, not `'RC'`. */
  lemma EmptyNameFallback(u: User)
    requires u.name == ""
    ensures UserNameFallback(Some(u)) == ""
  {
  }

  /** The layout's session-expiry test: an axios error whose response has status 401. */
  predicate IsUnauthorized(err: HttpClient.HttpError) {
    err.AxiosError? && err.response.Some? && err.response.value.status == 401
  }

  /** The auth state after the response interceptor has seen `err`. */
  function AfterResponseError(s: AuthState, err: HttpClient.HttpError): (r: AuthState)
    ensures IsUnauthorized(err) ==> r == Initial()
    ensures !IsUnauthorized(err) ==> r == s
  {
    if IsUnauthorized(err) then Clear(s) else s
  }

  /** A 401 seen twice leaves the same state as seen once. */
  lemma UnauthorizedHandlingIdempotent(s: AuthState, err: HttpClient.HttpError)
    ensures AfterResponseError(AfterResponseError(s, err), err) == AfterResponseError(s, err)
  {
  }

  /**
   * The response interceptor's error handler: a 401 clears the store and navigates
   * to sign-in; every error is rejected again unchanged.
   */
  method OnResponseError(store: Store, err: HttpClient.HttpError)
    returns (rejected: HttpClient.HttpError, navigateTo: Option<string>)
    modifies store
    ensures rejected == err
    ensures store.State() == AfterResponseError(old(store.State()), err)
    ensures IsUnauthorized(err) ==> navigateTo == Some(SignInRoute)
    ensures !IsUnauthorized(err) ==> navigateTo == None
  {
    navigateTo := None;
    if err.AxiosError? {
      var status := if err.response.Some? then Some(err.response.value.status) else None;
      if status == Some(401) {
        store.ClearMemoryUser();
        navigateTo := Some(SignInRoute);
      }
    }
    rejected := err;
  }

  /** `handleSignOut`: always clears the store, then navigates to sign-in. */
  method HandleSignOut(store: Store) returns (navigateTo: string)
    modifies store
    ensures store.State() == Initial()
    ensures navigateTo == SignInRoute
  {
    store.ClearMemoryUser();
    navigateTo := SignInRoute;
  }

  /**
   * The mount effect: when not authenticated, navigate away and install nothing;
   * otherwise register the response interceptor and return its id for cleanup.
   */
  method Mount(store: Store, api: HttpClient.Api) returns (navigateTo: Option<string>, interceptorId: Option<nat>)
    requires api.Valid()
    modifies api`responseInterceptors, api`nextInterceptorId
    ensures api.Valid()
    ensures !store.isAuthenticated ==>
      navigateTo == Some(SignInRoute) && interceptorId == None &&
      api.responseInterceptors == old(api.responseInterceptors)
    ensures store.isAuthenticated ==>
      navigateTo == None && interceptorId.Some? &&
      interceptorId.value !in old(api.responseInterceptors) &&
      api.responseInterceptors == old(api.responseInterceptors) + {interceptorId.value}
  {
    if !store.isAuthenticated {
      return Some(SignInRoute), None;
    }
    var id := api.UseResponseInterceptor();
    navigateTo, interceptorId := None, Some(id);
  }

  /** The effect's cleanup on unmount: ejects the interceptor the mount installed, if any. */
  method Unmount(api: HttpClient.Api, interceptorId: Option<nat>)
    requires api.Valid()
    modifies api`responseInterceptors
    ensures api.Valid()
    ensures interceptorId.Some? ==> api.responseInterceptors == old(api.responseInterceptors) - {interceptorId.value}
    ensures interceptorId.None? ==> api.responseInterceptors == old(api.responseInterceptors)
  {
    if interceptorId.Some? {
      api.EjectResponseInterceptor(interceptorId.value);
    }
  }
}
