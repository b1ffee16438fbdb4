/**
 * `createRecipe`: a JSON POST of the recipe's content, then, when a photo was
 * given, a multipart POST of the photo to the new recipe, whose returned URL is
 * merged into the result.
 */
module CreateRecipe {
  import opened Wrappers
  import opened RecipeTypes

  /** The function's argument (`ICreateRecipeBody`). */
  datatype CreateRecipeBody = CreateRecipeBody(
    title: string,
    description: string,
    photo: Option<File>,
    ingredients: seq<string>,
    instructions: string)

  /** The content fields of the body; the photo is never part of the first request. */
  function ContentOf(body: CreateRecipeBody): (c: RecipeContent)
    ensures c.title == body.title && c.description == body.description
    ensures c.ingredients == body.ingredients && c.instructions == body.instructions
  {
    RecipeContent(body.title, body.description, body.ingredients, body.instructions)
  }

  /** `{ ...recipeData, ...photoData }`: the photo field from the upload, everything else from the recipe. */
  function MergePhoto(recipe: Recipe, photoData: PhotoResponse): (r: Recipe)
    ensures r.photo == photoData.photo
    ensures r.(photo := recipe.photo) == recipe
  {
    recipe.(photo := photoData.photo)
  }

  /**
   * `createRecipe(body)`, given the outcomes of its two calls. The photo call's
   * outcome is used only when that call is made.
   */
  function Create(body: CreateRecipeBody, created: Outcome<Recipe>, uploaded: Outcome<PhotoResponse>): (c: Call<Recipe>)
    ensures |c.requests| >= 1 && c.requests[0] == Request(Post, RecipesPath, Json(ContentOf(body)))
    ensures |c.requests| == (if created.Success? && body.photo.Some? then 2 else 1)
    ensures |c.requests| == 2 ==>
      c.requests[1] == Request(Post, PhotoPath(created.payload.id), Multipart("photo", body.photo.value))
    ensures c.result.Success? <==> created.Success? && (body.photo.None? || uploaded.Success?)
    ensures c.result.Success? && body.photo.None? ==> c.result.payload == created.payload
    ensures c.result.Success? && body.photo.Some? ==> c.result.payload == MergePhoto(created.payload, uploaded.payload)
  {
    var first := PostRecipe(ContentOf(body));
    match created
    case Failure => Call([first], Failure)
    case Success(recipeData) =>
      if body.photo.None? then Call([first], Success(recipeData))
      else
        var second := PostPhoto(recipeData.id, body.photo.value);
        match uploaded
        case Failure => Call([first, second], Failure)
        case Success(photoData) => Call([first, second], Success(MergePhoto(recipeData, photoData)))
  }

  /** The merged recipe keeps the created recipe's identity and content. */
  lemma CreatedIdentityKept(body: CreateRecipeBody, created: Outcome<Recipe>, uploaded: Outcome<PhotoResponse>)
    requires Create(body, created, uploaded).result.Success?
    ensures var r := Create(body, created, uploaded).result.payload;
      r.id == created.payload.id && r.title == created.payload.title &&
      r.userId == created.payload.userId && r.createdAt == created.payload.createdAt
  {
  }

  /** A failed upload after a successful create returns nothing, though the recipe now exists server-side. */
  lemma PhotoFailureLosesCreatedRecipe(body: CreateRecipeBody, recipe: Recipe)
    requires body.photo.Some?
    ensures var c := Create(body, Success(recipe), Failure);
      c.result == Failure && |c.requests| == 2 && c.requests[1].path == PhotoPath(recipe.id)
  {
  }
}
