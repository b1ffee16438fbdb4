/** `updateRecipe`: a JSON PUT of the four content fields, answered with the updated fields. */
module UpdateRecipe {
  import opened Wrappers
  import opened RecipeTypes

  /** The function's argument (`IUpdateRecipeBody`). */
  datatype UpdateRecipeBody = UpdateRecipeBody(
    recipeId: string,
    title: string,
    description: string,
    ingredients: seq<string>,
    instructions: string)

  /** The response body (`IUpdateRecipeResponse`). */
  datatype UpdateRecipeResponse = UpdateRecipeResponse(
    title: string,
    description: string,
    ingredients: seq<string>,
    instructions: string)

  /** `{ id, ...data }`: a partial recipe, with no photo and no timestamps. */
  datatype UpdatedRecipe = UpdatedRecipe(
    id: string,
    title: string,
    description: string,
    ingredients: seq<string>,
    instructions: string)

  /** The PUT request; the id is in the path only, not in the body. */
  function UpdateRequest(body: UpdateRecipeBody): (q: Request)
    ensures q.verb == Put && q.path == RecipePath(body.recipeId)
    ensures q.body == Json(RecipeContent(body.title, body.description, body.ingredients, body.instructions))
  {
    Request(Put, RecipePath(body.recipeId), Json(RecipeContent(body.title, body.description, body.ingredients, body.instructions)))
  }

  /** `updateRecipe(body)`, given the outcome of its one call. */
  function Update(body: UpdateRecipeBody, response: Outcome<UpdateRecipeResponse>): (c: Call<UpdatedRecipe>)
    ensures c.requests == [UpdateRequest(body)]
    ensures c.result.Success? <==> response.Success?
    ensures c.result.Success? ==> c.result.payload.id == body.recipeId
    ensures c.result.Success? ==>
      c.result.payload.title == response.payload.title &&
      c.result.payload.description == response.payload.description &&
      c.result.payload.ingredients == response.payload.ingredients &&
      c.result.payload.instructions == response.payload.instructions
  {
    match response
    case Failure => Call([UpdateRequest(body)], Failure)
    case Success(data) =>
      Call([UpdateRequest(body)], Success(UpdatedRecipe(body.recipeId, data.title, data.description, data.ingredients, data.instructions)))
  }

  /** When the server echoes the sent content, the result is exactly what was asked for. */
  lemma EchoedUpdateIsRequested(body: UpdateRecipeBody)
    ensures var echo := UpdateRecipeResponse(body.title, body.description, body.ingredients, body.instructions);
      Update(body, Success(echo)).result ==
        Success(UpdatedRecipe(body.recipeId, body.title, body.description, body.ingredients, body.instructions))
  {
  }
}
