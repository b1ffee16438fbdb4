/** The recipe search form: its default value and the search-parameter rewrite on submit. */
module RecipesSearch {
  import opened Wrappers
  import opened RecipesPage

  /** The form's initial `recipeName`: the one in the URL, or `''`. */
  function DefaultFormValue(search: SearchParams): (v: string)
    ensures search.recipeName.Some? ==> v == search.recipeName.value
    ensures search.recipeName.None? ==> v == ""
  {
    CurrentRecipeName(search)
  }

  /**
   * `handleSearch`: exactly `''` drops `recipeName`; anything else (white space
   * included, untrimmed) is stored as given. Every other parameter, `page`
   * included, is kept.
   */
  function HandleSearch(submitted: Option<string>, search: SearchParams): (r: SearchParams)
    ensures submitted == Some("") ==> r.recipeName == None
    ensures submitted != Some("") ==> r.recipeName == submitted
    ensures r.page == search.page && r.others == search.others
  {
    if submitted == Some("") then search.(recipeName := None)
    else search.(recipeName := submitted)
  }

  /** After a search the form shows what was submitted. */
  lemma SearchThenDefaultRoundTrip(q: string, search: SearchParams)
    ensures DefaultFormValue(HandleSearch(Some(q), search)) == q
  {
  }

  /** A search asks for the list filtered by the submitted text, on the same page index. */
  lemma SearchKeepsPage(q: string, search: SearchParams)
    ensures ListQueryKey(HandleSearch(Some(q), search)) == RecipesKey(ListQueryKey(search).pageIndex, q)
  {
  }

  /** Clearing the search brings back the unfiltered list's cache entry for the same page. */
  lemma EmptySearchIsUnfiltered(search: SearchParams)
    ensures ListQueryKey(HandleSearch(Some(""), search)) ==
      ListQueryKey(SearchParams(search.page, None, search.others))
  {
  }

  /** Submitting the current value again changes nothing. */
  lemma ResubmitIdempotent(submitted: Option<string>, search: SearchParams)
    ensures HandleSearch(submitted, HandleSearch(submitted, search)) == HandleSearch(submitted, search)
  {
  }
}
