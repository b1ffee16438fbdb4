/**
 * The records the client exchanges with the recipe API, and an abstract
 * description of the HTTP requests it sends.
 */
module RecipeTypes {
  import opened Wrappers

  /** A recipe as the server returns it (`IRecipe`). Timestamps are opaque strings. */
  datatype Recipe = Recipe(
    id: string,
    title: string,
    titleNormalized: string,
    slug: string,
    description: string,
    photo: string,
    ingredients: seq<string>,
    instructions: string,
    userId: string,
    createdAt: string,
    updatedAt: string)

  /**
   * The pagination data of one list response (`meta` of `IGetRecipesResponse`),
   * as the server reports it; the list page hands it to the pagination bar.
   */
  datatype PageMeta = PageMeta(pageIndex: int, perPage: int, totalCount: int)

  /** The four content fields that the JSON bodies of create and update carry. */
  datatype RecipeContent = RecipeContent(
    title: string,
    description: string,
    ingredients: seq<string>,
    instructions: string)

  /** A browser `File`: its MIME type and its size in bytes. */
  datatype File = File(name: string, mimeType: string, size: nat)

  /** The photo endpoints' response body (`{ photo: string }`). */
  datatype PhotoResponse = PhotoResponse(photo: string)

  datatype Verb = Post | Put

  /** A request body: JSON content, or a multipart form with one file field. */
  datatype Body = Json(content: RecipeContent) | Multipart(field: string, file: File)

  /** One HTTP request as the client issues it. */
  datatype Request = Request(verb: Verb, path: string, body: Body)

  /** The requests one operation issued, and what it finally returned. */
  datatype Call<+T> = Call(requests: seq<Request>, result: Outcome<T>)

  const RecipesPath := "/recipes"

  /** `/recipes/${id}`. */
  function RecipePath(id: string): (p: string)
    ensures p == RecipesPath + "/" + id
  {
    "/recipes/" + id
  }

  /** `/recipes/${id}/photo`. */
  function PhotoPath(id: string): (p: string)
    ensures p == RecipePath(id) + "/photo"
  {
    "/recipes/" + id + "/photo"
  }

  /** `api.post('/recipes', content)`: the JSON POST that creates a recipe. */
  function PostRecipe(content: RecipeContent): Request {
    Request(Post, RecipesPath, Json(content))
  }

  /** The multipart POST of `photo`, under field `photo`, to recipe `id`. */
  function PostPhoto(id: string, photo: File): Request {
    Request(Post, PhotoPath(id), Multipart("photo", photo))
  }

  /** The photo path names the recipe it was built from. */
  lemma PhotoPathInjective(a: string, b: string)
    ensures PhotoPath(a) == PhotoPath(b) <==> a == b
  {
    if PhotoPath(a) == PhotoPath(b) {
      var n := |"/recipes/"|;
      assert |a| == |b|;
      assert a == PhotoPath(a)[n..n + |a|];
      assert b == PhotoPath(b)[n..n + |b|];
    }
  }
}
