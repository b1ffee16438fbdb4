# Recipeez client logic, modelled in Dafny

This project models the decision logic of the Recipeez web client, a React/TypeScript
front end for a recipe API. The model covers:

- the session state: the zustand auth store (`setMemoryUser`, `clearMemoryUser`) and
  the older React context that keeps an in-memory token in step with one
  `localStorage` key;
- credential handling: the axios request interceptor that adds
  `Authorization: Bearer <token>`, and the router guards (`indexLoader`,
  `signInLoader`, `recipesLoader`, `authMiddleware`, the catch-all route), which decide
  from the stored token and install it as the API's default header;
- the two session-expiry tests: HTTP status 401 in the layout's response interceptor,
  and a `'jwt expired'` error body on the recipe list page;
- the app layout: the avatar initials fallback, sign-out, and the mount effect that
  registers and later ejects the response interceptor;
- the list page: search-parameter defaults, the zero-based page index, and the list
  query key; the pagination bar (page count, label, disabled buttons, the four
  navigation targets); the search form's parameter rewrite;
- the create-recipe form: its state, the photo filter (image type, 5 MB), the
  `;`-separated ingredients input, and the submit sequence (validation, two POSTs, the
  reset on success, the message on failure);
- the `createRecipe`, `updateRecipe` and `updateRecipePhoto` calls: the requests they
  send and the records they return;
- the build's `manualChunks` vendor classifier.

Stateful sources are classes whose methods change fields, each proved equal to a pure
state-transition function. Pure sources are functions. Each HTTP call is an input
`Outcome<T>`: either `Success(payload)` or `Failure`. Browser storage is a
`map<string, string>`. JavaScript semantics the code relies on are written out in
`Strings`:

- truthiness of `string | null`;
- `split` and `join` on one character, where `''.split(';')` is `['']`;
- `trim` with the ECMAScript white-space and line-terminator set;
- `includes`;
- `startsWith`;
- `toUpperCase`, restricted to ASCII.

Files: `wrappers.dfy`, `strings.dfy`, `recipe_types.dfy`, `auth_store.dfy`,
`auth_context.dfy`, `http_client.dfy`, `router.dfy`, `app_layout.dfy`,
`recipes_page.dfy`, `pagination.dfy`, `recipes_search.dfy`, `create_recipe.dfy`,
`update_recipe.dfy`, `update_recipe_photo.dfy`, `create_recipe_form.dfy`, `chunks.dfy`.

## Model

| member | source | states |
|---|---|---|
| Strings.Split | src/components/create-recipe-form.tsx:120 | `split` on one character gives at least one piece, and no piece contains the separator |
| Strings.JoinSplit | src/components/create-recipe-form.tsx:169 | joining the pieces of a split with the same separator (`Join`) gives back the original string |
| Strings.SplitJoin | src/components/create-recipe-form.tsx:120 | a non-empty list of separator-free pieces, joined and then split, is the same list |
| Strings.SplitNoSeparator | src/pages/_app/layout.tsx:25 | a string without the separator splits into exactly itself |
| Strings.SplitPiece | src/pages/_app/layout.tsx:25 | splitting `p + sep + rest`, where `p` has no separator, gives `p` followed by the pieces of `rest` |
| Strings.OccursAtContains | vite.config.ts:28 | an occurrence at any index (`OccursAt`) makes `includes` (`Contains`) true |
| Strings.ContainsOccurs | vite.config.ts:28 | `includes` being true yields an index where the pattern occurs |
| Strings.ContainsTransitive | vite.config.ts:28-47 | a string that includes `t` includes everything `t` includes |
| Strings.TrimStart | src/components/create-recipe-form.tsx:26 | the result is a suffix of the input, what was removed is all white space (`IsBlank` over `IsWhiteSpace`, the ECMAScript set), and a non-empty result does not start with white space |
| Strings.TrimEnd | src/components/create-recipe-form.tsx:26 | the result is a prefix of the input, what was removed is all white space (`IsBlank`), and a non-empty result does not end with white space |
| Strings.TrimStartEmptyIffBlank | src/components/create-recipe-form.tsx:26 | trimming the start gives `''` exactly when every character is white space |
| Strings.TrimEndEmptyIffBlank | src/components/create-recipe-form.tsx:26 | trimming the end gives `''` exactly when every character is white space |
| Strings.TrimEmptyIffBlank | src/components/create-recipe-form.tsx:26 | `!title.trim()` (`Trim` = `TrimEnd` after `TrimStart`) holds exactly when the title is empty or all white space |
| Strings.ToUpperChar | src/pages/_app/layout.tsx:28 | ASCII lower-case letters become upper case; every other character is kept |
| Strings.ToUpper | src/pages/_app/layout.tsx:28 | same length, character by character `ToUpperChar`, and no ASCII lower-case letter is left |
| RecipeTypes.RecipePath | src/api/update-recipte.ts:19 | the update path is `/recipes/` followed by the id |
| RecipeTypes.PhotoPath | src/api/update-recipe-photo.ts:16 | the photo path is the recipe path followed by `/photo` |
| RecipeTypes.PhotoPathInjective | src/api/create-recipe.ts:31 | two photo paths are equal exactly when their recipe ids are equal |
| AuthStore.Initial | src/stores/auth.ts:16-17 | the initial state has no user, is not authenticated, and is consistent |
| AuthStore.SetUser | src/stores/auth.ts:18 | the user becomes exactly `u`, authenticated, with nothing merged from the previous user |
| AuthStore.Clear | src/stores/auth.ts:19 | the state becomes the initial state |
| AuthStore.ClearIdempotent | src/stores/auth.ts:19 | clearing twice is the same as clearing once |
| AuthStore.SetThenClearIsInitial | src/stores/auth.ts:16-19 | signing in then clearing returns to the initial state |
| AuthStore.SetUserReplaces | src/stores/auth.ts:18 | the last `setMemoryUser` wins |
| AuthStore.Run | src/stores/auth.ts:16-19 | any sequence of the two operations keeps `isAuthenticated <==> user != null` (`Consistent`), and the user is the last one set, or none after a clear |
| AuthStore.ConsistentAfterAnySequence | src/stores/auth.ts:16-19 | every state reachable from the initial state is consistent |
| AuthStore.Store.constructor | src/stores/auth.ts:16-17 | the store starts in the initial state |
| AuthStore.Store.SetMemoryUser | src/stores/auth.ts:18 | the fields become `SetUser` of the old state, and consistency holds |
| AuthStore.Store.ClearMemoryUser | src/stores/auth.ts:19 | the fields become `Clear` of the old state, and consistency holds |
| AuthContext.StoredAfterUpdate | src/contexts/Auth.tsx:23-27 | a truthy token (`Truthy`) is stored under `@recipeez-0.0.1:token`; `null` or `''` removes the key; no other key changes |
| AuthContext.TokenAfterMount | src/contexts/Auth.tsx:34-40 | a non-empty stored token becomes the in-memory token; otherwise the token is left as it was |
| AuthContext.UpdateIdempotent | src/contexts/Auth.tsx:17-30 | updating twice with the same argument leaves the same storage as updating once |
| AuthContext.UpdateThenMountRoundTrip | src/contexts/Auth.tsx:23-38 | a truthy token written by an update is the token the next mount loads |
| AuthContext.ClearedStorageMountsNothing | src/contexts/Auth.tsx:25-39 | after an update with `null` or `''`, a mount loads nothing |
| AuthContext.UseAuth | src/contexts/Auth.tsx:45-53 | the guard never throws, because the `{}` default is truthy (`ObjectTruthy`); the context value (`Provider.Value`) is returned as is |
| AuthContext.Provider.constructor | src/contexts/Auth.tsx:15 | the in-memory token starts as `null` |
| AuthContext.Provider.UpdateUserToken | src/contexts/Auth.tsx:17-30 | the token equals the argument (written only when it differs), and storage is `StoredAfterUpdate` of the old storage |
| AuthContext.Provider.LoadStoredToken | src/contexts/Auth.tsx:34-40 | the token becomes `TokenAfterMount` of storage and the old token; storage is unchanged |
| HttpClient.BearerValue | src/lib/axios.ts:13 | the header value is `Bearer ` followed by the token, with nothing else |
| HttpClient.BearerToken | src/lib/axios.ts:13 | a value has a token exactly when it starts with `Bearer ` (`StartsWith`), and is that prefix plus the token |
| HttpClient.BearerRoundTrip | src/lib/axios.ts:13 | stripping the prefix from a bearer value gives back the token |
| HttpClient.BearerValueInjective | src/lib/axios.ts:13 | different tokens give different header values |
| HttpClient.StoreToken | src/lib/axios.ts:10 | `user?.token`: none without a user, otherwise the user's token |
| HttpClient.WithCredentials | src/lib/axios.ts:9-17 | a truthy token sets Authorization to its bearer value; otherwise the headers are unchanged; other headers are never touched |
| HttpClient.ClearedStoreAddsNoCredential | src/lib/axios.ts:10-14 | after `clearMemoryUser`, requests carry no added credential |
| HttpClient.SignedInTokenRecovered | src/lib/axios.ts:10-14 | after `setMemoryUser(u)` with a truthy token, the header carries exactly `u.token` |
| HttpClient.RequestConfig.constructor | src/lib/axios.ts:9 | a config holds the given url and headers |
| HttpClient.AuthorizationInterceptor | src/lib/axios.ts:9-17 | the same config object is returned; its headers become `WithCredentials` of the old headers and the store's user; its url is unchanged |
| HttpClient.Api.constructor | src/lib/axios.ts:5-7 | a new instance has no default Authorization and no response interceptors |
| HttpClient.Api.SetDefaultAuthorization | src/App.tsx:18 | the common Authorization default becomes the given value |
| HttpClient.Api.UseResponseInterceptor | src/pages/_app/layout.tsx:43 | a handler is registered under an id not already in use |
| HttpClient.Api.EjectResponseInterceptor | src/pages/_app/layout.tsx:60 | the handler with that id is removed |
| Router.GetToken | src/App.tsx:9 | a token is present exactly when the key is stored, and it is the stored value |
| Router.IndexLoader | src/App.tsx:22-30 | always a redirect: to `/recipes` with a token, to `/auth/sign-in` without one |
| Router.SignInLoader | src/App.tsx:32-40 | with a token, a redirect to `/recipes`; otherwise sign-in renders with no data |
| Router.RecipesDecision | src/App.tsx:42-51 | without a token, a redirect to sign-in; with one, render with `{ token }` |
| Router.RecipesLoader | src/App.tsx:42-51 | returns `RecipesDecision`; with a token, installs `Bearer <token>` as the default header; otherwise the default is unchanged |
| Router.AuthMiddleware | src/App.tsx:11-20 | without a token, redirects and never calls `next()`; with one, installs the header and calls `next()` once |
| Router.MatchRoute | src/App.tsx:53-78 | each explicit route matches exactly its own path; every other path is the catch-all |
| Router.Navigate | src/App.tsx:53-78 | the result is the matched route's outcome; the default header changes only on the recipes route with a token |
| Router.SignInAndRecipesComplementary | src/App.tsx:32-51 | sign-in renders exactly when the recipe list does not |
| Router.RenderOnlyWhereGuardAllows | src/App.tsx:22-75 | a navigation (`Outcome` of the matched route) renders exactly for sign-in without a token (`HasToken`) or for the list with one; every other navigation redirects |
| Router.EmptyTokenIsAbsent | src/App.tsx:14-45 | an empty stored token gives the same outcome as no stored token, on every path |
| Router.UnmatchedPathRedirects | src/App.tsx:72-75 | any path outside the table redirects to sign-in, whatever is stored |
| AppLayout.CountNonEmpty | src/pages/_app/layout.tsx:26 | the number of non-empty pieces is at most the number of pieces |
| AppLayout.FirstLetters | src/pages/_app/layout.tsx:26-27 | one character for each non-empty piece; an empty piece's `undefined` is joined as nothing |
| AppLayout.FirstLettersAppend | src/pages/_app/layout.tsx:26-27 | the first letters of a concatenation are the concatenation of the first letters |
| AppLayout.EmptyPieceContributesNothing | src/pages/_app/layout.tsx:25-27 | an empty piece, from a doubled, leading or trailing space, adds no letter |
| AppLayout.FirstLettersOfWords | src/pages/_app/layout.tsx:26-27 | for non-empty pieces, the result is the first character of each piece, in order |
| AppLayout.UserNameFallback | src/pages/_app/layout.tsx:22-30 | `'RC'` without a user; otherwise `Initials` of the name: one letter per non-empty name piece, with no ASCII lower case |
| AppLayout.InitialsOfWords | src/pages/_app/layout.tsx:22-30 | a name of words joined by single spaces gives the upper-cased first letter of each word |
| AppLayout.SingleWordFallback | src/pages/_app/layout.tsx:22-30 | a name without spaces gives its first character, upper-cased |
| AppLayout.EmptyNameFallback | src/pages/_app/layout.tsx:24-28 | a user with an empty name gets `''`, not `'RC'` |
| AppLayout.AfterResponseError | src/pages/_app/layout.tsx:45-56 | an axios error with status 401 (`IsUnauthorized`) clears the store; any other error leaves it alone |
| AppLayout.UnauthorizedHandlingIdempotent | src/pages/_app/layout.tsx:49-51 | handling the same error twice leaves the same state as handling it once |
| AppLayout.OnResponseError | src/pages/_app/layout.tsx:45-56 | the error is rejected again unchanged; a 401 clears the store and navigates to `/sign-in`; nothing else navigates |
| AppLayout.HandleSignOut | src/pages/_app/layout.tsx:32-35 | the store is cleared, then the layout navigates to `/sign-in` |
| AppLayout.Mount | src/pages/_app/layout.tsx:37-57 | not authenticated: navigate to sign-in and register nothing; authenticated: register exactly one new interceptor and return its id |
| AppLayout.Unmount | src/pages/_app/layout.tsx:59-61 | the cleanup removes exactly the interceptor the mount registered |
| RecipesPage.PageIndex | src/pages/_app/recipes/index.tsx:30 | `Math.max(page - 1, 0)`: one less than the page when the page is at least 1, otherwise 0 |
| RecipesPage.ListQueryKey | src/pages/_app/recipes/index.tsx:28-37 | the key is the page index of the page (`CurrentPage`, default 1) and the recipe name (`CurrentRecipeName`, default `''`) |
| RecipesPage.DefaultsGiveFirstUnfilteredPage | src/pages/_app/recipes/index.tsx:28-37 | a URL without `page` and `recipeName` asks for index 0 of the unfiltered list |
| RecipesPage.QueryKeyDistinguishes | src/pages/_app/recipes/index.tsx:37 | two searches share a cache entry exactly when their page indexes and names agree |
| RecipesPage.LowPagesShareIndexZero | src/pages/_app/recipes/index.tsx:28-30 | every page up to 1, and a missing page, map to index 0 |
| RecipesPage.AfterQueryError | src/pages/_app/recipes/index.tsx:42-50 | an axios error whose body has `error === 'jwt expired'` (`IsJwtExpired`) clears the store; any other error leaves it alone |
| RecipesPage.QueryErrorHandlingIdempotent | src/pages/_app/recipes/index.tsx:42-50 | the handling runs on every render; repeating it changes nothing |
| RecipesPage.HandleQueryError | src/pages/_app/recipes/index.tsx:42-50 | the store becomes `AfterQueryError`; an expired token also navigates to `/sign-in` |
| RecipesPage.ExpiryTestsDiverge | src/pages/_app/recipes/index.tsx:44 | a 401 without the body string passes only the layout's test; the body string under status 500 passes only the page's test |
| RecipesPage.EitherExpiryTestClears | src/pages/_app/layout.tsx:49-50 | when either test fires, the layout's handling followed by the page's leaves the store cleared |
| Pagination.TotalPages | src/components/pagination.tsx:16 | `Math.ceil(totalCount / perPage)`: the least page count that holds every recipe; zero exactly for an empty list |
| Pagination.WithPage | src/components/pagination.tsx:21 | `{ ...oldSearch, page }` sets the page and keeps every other parameter |
| Pagination.PreviousTarget | src/components/pagination.tsx:18-22 | nothing at index 0; otherwise page − 1 (or 0 when the page is 0), keeping the other parameters |
| Pagination.NextTarget | src/components/pagination.tsx:24-28 | as written: nothing exactly when `pageIndex === totalPages`; otherwise page + 1 (or 1 when the page is 0) |
| Pagination.BoundedNextTarget | src/components/pagination.tsx:24-28 | corrected: nothing exactly from the last page on; the target never passes the page count |
| Pagination.FirstTarget | src/components/pagination.tsx:30-32 | writes `page: 1`, which asks for page index 0, and keeps the other parameters |
| Pagination.LastTarget | src/components/pagination.tsx:34-36 | writes `page: totalPages`, which asks for the last page's index (index 0 for an empty list), and keeps the other parameters |
| Pagination.LabelShowsRequestedPage | src/components/pagination.tsx:14-42 | the label (`PageLabel`) shows the server's `meta.pageIndex` + 1 and the page count (`PagesOf` the props); when the server echoes the requested index, that is the page in the URL |
| Pagination.PreviousStepsBackOnePage | src/components/pagination.tsx:18-22 | with the requested index echoed in `meta`, previous from page 2 or later asks for the index one lower with the same filter |
| Pagination.NextStepsForwardOnePage | src/components/pagination.tsx:24-28 | with the requested index echoed in `meta` and a page before the last, next is enabled and asks for the index one higher with the same filter |
| Pagination.ButtonsOnLastPage | src/components/pagination.tsx:44-53 | on the last page, next and last are disabled (`ForwardDisabled`); first and previous (`BackDisabled`) only if it is also the first |
| Pagination.EmptyListPagination | src/components/pagination.tsx:16-53 | an empty list shows "1 de 0", leaves next enabled with its guard stopping it, and last asks for index 0 |
| Pagination.NextOvershootsLastPage | src/components/pagination.tsx:25 | the URL on page 5, and the server echoing index 4 with 25 recipes at 10 per page (3 pages): next is enabled and goes to page 6 |
| Pagination.BoundedNextAgreesInRange | src/components/pagination.tsx:25 | on every page before the last, the corrected guard and the written one agree |
| RecipesSearch.DefaultFormValue | src/components/recipes/search.tsx:16-21 | the form starts with the URL's `recipeName`, or `''` |
| RecipesSearch.HandleSearch | src/components/recipes/search.tsx:24-31 | exactly `''` drops `recipeName`; any other value is stored untrimmed; `page` and all other parameters are kept |
| RecipesSearch.SearchThenDefaultRoundTrip | src/components/recipes/search.tsx:16-30 | after a search, the form shows what was submitted |
| RecipesSearch.SearchKeepsPage | src/components/recipes/search.tsx:30 | a search filters by the submitted text on the same page index; it does not reset to the first page |
| RecipesSearch.EmptySearchIsUnfiltered | src/components/recipes/search.tsx:25-26 | clearing the search gives the unfiltered list's key for the same page |
| RecipesSearch.ResubmitIdempotent | src/components/recipes/search.tsx:24-31 | submitting the same value twice is the same as once |
| CreateRecipe.ContentOf | src/api/create-recipe.ts:19-24 | the first request's body is the four content fields; the photo is not part of it |
| CreateRecipe.MergePhoto | src/api/create-recipe.ts:40 | `{ ...recipeData, ...photoData }` over the typed records: the photo comes from the upload and every other typed field from the created recipe |
| CreateRecipe.Create | src/api/create-recipe.ts:18-44 | the JSON POST first (`PostRecipe`); the photo POST (`PostPhoto`) to the new id only when a photo was given and the create succeeded; the result succeeds exactly when every call made succeeds, merged when a photo was sent |
| CreateRecipe.CreatedIdentityKept | src/api/create-recipe.ts:40 | a successful result keeps the created recipe's id, title, owner and creation time |
| CreateRecipe.PhotoFailureLosesCreatedRecipe | src/api/create-recipe.ts:30-38 | a failed upload after a successful create fails as a whole, although both requests were sent |
| UpdateRecipe.UpdateRequest | src/api/update-recipte.ts:19-24 | a PUT to `/recipes/<id>` whose body holds the four content fields; the id is only in the path |
| UpdateRecipe.Update | src/api/update-recipte.ts:18-27 | one request; the result succeeds exactly when the call does, with the argument's id and the response's four fields |
| UpdateRecipe.EchoedUpdateIsRequested | src/api/update-recipte.ts:26 | when the server echoes the sent content, the result is exactly what was asked for |
| UpdateRecipePhoto.UpdatePhoto | src/api/update-recipe-photo.ts:12-23 | one multipart PUT of field `photo` to the photo path; a success returns the id and the typed response's photo URL |
| UpdateRecipePhoto.PhotoRequestIdentifiesRecipe | src/api/update-recipe-photo.ts:16 | two photo requests share a path exactly when they are for the same recipe |
| CreateRecipeForm.AfterPhotoChange | src/components/create-recipe-form.tsx:86-117 | no file clears photo and preview; a non-image or a file over 5 MB sets its message and keeps the earlier photo; an accepted file becomes the photo and clears the message |
| CreateRecipeForm.PhotoChangeFilter | src/components/create-recipe-form.tsx:89-103 | after a change, the photo is the new file exactly when it passes `AcceptsPhoto`: an `image/` type of at most 5 MB |
| CreateRecipeForm.AfterIngredientsChange | src/components/create-recipe-form.tsx:119-121 | the ingredients become at least one piece, and nothing else changes |
| CreateRecipeForm.IngredientsInputRoundTrip | src/components/create-recipe-form.tsx:169-170 | the input (`IngredientsText`, `ingredients.join(';')`) shows exactly what was typed into it |
| CreateRecipeForm.IngredientsListRoundTrip | src/components/create-recipe-form.tsx:169-170 | typing the displayed text back in recreates the same list |
| CreateRecipeForm.ClearedIngredientsInput | src/components/create-recipe-form.tsx:120 | clearing the input gives `['']`, not the initial `[]` |
| CreateRecipeForm.AfterCallsOutcome | src/components/create-recipe-form.tsx:45-75 | after validation (`AfterCalls`): `isSubmitting` ends false; one or two requests are appended; `onCreate` is called and no message set exactly when both calls succeed |
| CreateRecipeForm.SubmitOutcome | src/components/create-recipe-form.tsx:20-76 | over `AfterSubmit` (validation, then `AfterCalls` and `AfterUpload` for the two POSTs, ending in `Failed` with a `Message` whose `Text` is the shown string, or in the `Succeeded` reset): every path ends with `isSubmitting` false; `onCreate` is called once, and the message is cleared, exactly on success (`SubmitSucceeds`); at most two requests are appended to those already sent |
| CreateRecipeForm.BlankTitleRejected | src/components/create-recipe-form.tsx:26-30 | an empty or all-white-space title sets the title message and sends nothing, whatever the photo |
| CreateRecipeForm.MissingPhotoRejected | src/components/create-recipe-form.tsx:32-36 | a valid title without a photo sets the photo message and sends nothing |
| CreateRecipeForm.SuccessfulSubmit | src/components/create-recipe-form.tsx:38-69 | the metadata POST, then the photo POST to the returned id; every field back to `InitialForm`; `onCreate` called once |
| CreateRecipeForm.FailedSubmitKeepsFields | src/components/create-recipe-form.tsx:70-75 | any failure sets a message, keeps every field and does not call `onCreate` |
| CreateRecipeForm.SubmitSendsWhatCreateRecipeSends | src/components/create-recipe-form.tsx:38-54 | a validated form sends the same requests as `createRecipe` with the same fields (its `CreateRequest` is `PostRecipe` of the four fields, then `PostPhoto`), and succeeds exactly when it does |
| CreateRecipeForm.Form.constructor | src/components/create-recipe-form.tsx:11-18 | the form starts in `InitialForm`: empty, not submitting, with no message |
| CreateRecipeForm.Form.HandleTitleChange | src/components/create-recipe-form.tsx:78-80 | only the title changes |
| CreateRecipeForm.Form.HandleDescriptionChange | src/components/create-recipe-form.tsx:82-84 | only the description changes |
| CreateRecipeForm.Form.HandleInstructionsChange | src/components/create-recipe-form.tsx:123-125 | only the instructions change |
| CreateRecipeForm.Form.HandleIngredientsChange | src/components/create-recipe-form.tsx:119-121 | the state becomes `AfterIngredientsChange` of the old state |
| CreateRecipeForm.Form.HandlePhotoChange | src/components/create-recipe-form.tsx:86-117 | the state becomes `AfterPhotoChange` of the old state |
| CreateRecipeForm.Form.HandleSubmit | src/components/create-recipe-form.tsx:20-76 | the state becomes `AfterSubmit` of the old state and the two call outcomes |
| CreateRecipeForm.Form.SendRecipe | src/components/create-recipe-form.tsx:38-75 | a proof split of `handleSubmit`, not a function of the source: after validation, the state becomes `AfterCalls` (the metadata POST, then the message on failure or the photo step) |
| CreateRecipeForm.Form.UploadPhoto | src/components/create-recipe-form.tsx:47-75 | a proof split of `handleSubmit`, not a function of the source: the state becomes `AfterUpload` (the photo POST, then the reset and `onCreate`, or the message) |
| Chunks.ManualChunks | vite.config.ts:27-56 | the result is one of the four chunk names, or none |
| Chunks.ContainsAnyIff | vite.config.ts:28-53 | a chain of `includes` tests (`ContainsAny`) is true exactly when one of its patterns occurs in the id |
| Chunks.GroupImpliesReact | vite.config.ts:28-47 | a group whose every pattern mentions `react` matches only ids that mention it |
| Chunks.ReactAt | vite.config.ts:28 | the characters `react` at some index make a string include `'react'` |
| Chunks.ReactPatternsMentionReact | vite.config.ts:28 | both patterns of the first test include `'react'` |
| Chunks.TanstackPatternsMentionReact | vite.config.ts:32-34 | every TanStack pattern includes `'react'` |
| Chunks.UiPatternsMentionReact | vite.config.ts:39-44 | every Radix pattern includes `'react'` |
| Chunks.ReactIdIsReactVendor | vite.config.ts:28-30 | any id including `'react'` goes to `react-vendor` |
| Chunks.TanstackVendorUnreachable | vite.config.ts:31-37 | no id ever goes to `tanstack-vendor` |
| Chunks.UiVendorUnreachable | vite.config.ts:38-47 | no id ever goes to `ui-vendor` |
| Chunks.LucideIsReactVendor | vite.config.ts:52 | ids including `lucide-react` go to `react-vendor`, not `utils-vendor` |
| Chunks.ManualChunksReduces | vite.config.ts:27-56 | the four-branch chain equals a two-test classifier (`Reduced`): `'react'`, else `axios`, `zod` or `date-fns` |
| Chunks.UtilityIdIsUtilsVendor | vite.config.ts:48-54 | an id with `axios`, `zod` or `date-fns` and without `'react'` goes to `utils-vendor` |
| Chunks.UnmatchedIdHasNoChunk | vite.config.ts:27-56 | an id gets no chunk exactly when it includes none of `react`, `axios`, `zod`, `date-fns` |

## Left out

- Rendering and JSX, CSS classes, the theme toggle, and the skeletons are not modelled.
- Asynchrony is not modelled: every `await` is a step inside one method. Interleaved
  renders, stale closures and concurrent submits are not modelled.
- `navigate` is not modelled as a router. A method that navigates returns the target
  route, and the router's effect on the page is not modelled.
- The `email: ''` search parameter that the list page adds when it navigates to sign-in is left out.
- Real `localStorage` is modelled as a `map<string, string>` parameter or field, and
  zustand's `persist` middleware (key `@recipeez:auth`) is not modelled. The store
  starts in its initial state, not from a persisted copy.
- The second request interceptor (a random delay of up to 3 s when
  `VITE_ENABLE_API_DELAY` is set) is left out, because it only involves time and
  randomness. The environment module `src/env.ts` is not part of this model.
- The response interceptor's success handler is the identity and is not modelled.
- `getRecipes` is not modelled. Only the `meta` of its response is (`RecipeTypes.PageMeta`),
  and its query parameters are the page's query key.
- `FileReader` preview loading is not modelled, and neither is resetting the DOM file
  input. `photoPreview` is cleared where the source clears it and never set.
- `console.error` in the form's `catch` is not modelled. An exception thrown by
  `onCreate` itself is not modelled.
- The cache writes (`setQueryData`) in `src/pages/_app/recipes/$recipeId.tsx` and
  `src/pages/_app/recipes/$id.tsx` are not part of this model. Neither are the other
  pages, the sign-in flow or `deleteRecipe`.
- Strings.ToUpper: maps only ASCII `a`–`z`. JavaScript's full Unicode case mapping,
  which can also change the length, is not modelled, because the fallback's
  properties concern the letter count.
- AppLayout.UserNameFallback: states "no ASCII lower-case letter", not full Unicode
  upper case, because it relies on `Strings.ToUpper`. `letter[0]` takes one UTF-16 code
  unit, which the model treats as one `char`.
- Pagination.TotalPages: requires `perPage > 0`. JavaScript's `Infinity`/`NaN` for
  `perPage = 0` is floating point and is left out. So is a non-integral `page` from the URL.
- Pagination.LabelShowsRequestedPage: requires that the server's `meta.pageIndex` equals
  the requested index. The bar renders the server's value, and the API is not part of this model.
- Pagination.PreviousStepsBackOnePage: requires the same echo of the requested index in `meta`.
- Pagination.NextStepsForwardOnePage: requires the same echo of the requested index in `meta`.
- Pagination.NextOvershootsLastPage: the overshoot assumes the server echoes an index past
  its last page, for example after a search narrows the list while `page` is kept.
- CreateRecipe.MergePhoto: both records are typed, so the spread carries only their typed
  fields. At run time, `{ ...recipeData, ...photoData }` also copies whatever else the server
  sends (an `updatedAt`, or an `id` that would override the created one). So
  `CreatedIdentityKept` holds only under this typing.
- UpdateRecipePhoto.UpdatePhoto: the response is typed as `{ photo }`. Extra fields the server
  returns are copied by `{ id, ...data }` but are not modelled. A returned `id` would override
  the argument's.
- Router.MatchRoute: compares paths exactly. Trailing slashes, case and nested
  matching in the router library are not modelled.
- UpdateRecipe.Update: the response is typed with four fields. Extra fields the server
  returns are copied by `{ id, ...data }` but are not modelled, and a returned `id` would
  override the argument's.
- HttpClient.ErrorResponse: keeps only the status and the body's `error` field; the
  other response fields are not modelled.
- The `IUser` type file is not part of this model. `AuthStore.User` holds what the
  code reads: `name` and an optional `token`.

## Findings

| source | as written | input that shows it | evidently intended | confidence | as-written member | corrected member |
|---|---|---|---|---|---|---|
| src/components/pagination.tsx:25 | `handleNextPage` returns early only when `pageIndex === totalPages`, while the button is disabled at `pageIndex + 1 === totalPages` | 25 recipes at 10 per page (3 pages), the URL on page 5 and the server echoing index 4: next is enabled, its guard lets it through, and it navigates to page 6 | no navigation once the last page is reached (`pageIndex + 1 >= totalPages`) | medium, not executed | Pagination.NextTarget, Pagination.NextOvershootsLastPage | Pagination.BoundedNextTarget |
