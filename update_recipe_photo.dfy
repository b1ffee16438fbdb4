/** `updateRecipePhoto`: a multipart PUT of field `photo`, answered with the new photo URL. */
module UpdateRecipePhoto {
  import opened Wrappers
  import opened RecipeTypes

  /** The function's argument (`IUpdateRecipePhotoBody`). */
  datatype UpdateRecipePhotoBody = UpdateRecipePhotoBody(recipeId: string, photo: File)

  /** `{ id, ...data }` over the typed response: the id and the new photo URL. */
  datatype UpdatedPhoto = UpdatedPhoto(id: string, photo: string)

  /** `updateRecipePhoto(body)`, given the outcome of its one call. */
  function UpdatePhoto(body: UpdateRecipePhotoBody, response: Outcome<PhotoResponse>): (c: Call<UpdatedPhoto>)
    ensures c.requests == [Request(Put, PhotoPath(body.recipeId), Multipart("photo", body.photo))]
    ensures c.result.Success? <==> response.Success?
    ensures c.result.Success? ==> c.result.payload == UpdatedPhoto(body.recipeId, response.payload.photo)
  {
    var request := Request(Put, PhotoPath(body.recipeId), Multipart("photo", body.photo));
    match response
    case Failure => Call([request], Failure)
    case Success(data) => Call([request], Success(UpdatedPhoto(body.recipeId, data.photo)))
  }

  /** The request's path names the recipe: different recipes never share a photo request path. */
  lemma PhotoRequestIdentifiesRecipe(
    a: UpdateRecipePhotoBody, ra: Outcome<PhotoResponse>,
    b: UpdateRecipePhotoBody, rb: Outcome<PhotoResponse>)
    ensures UpdatePhoto(a, ra).requests[0].path == UpdatePhoto(b, rb).requests[0].path <==> a.recipeId == b.recipeId
  {
    PhotoPathInjective(a.recipeId, b.recipeId);
  }
}
