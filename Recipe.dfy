/** A recipe: a name, its ingredients in order, and free-text instructions,
    all fixed when the recipe is built. */
module Recipes {
  import opened Results
  import opened Json

  datatype Recipe = Recipe(name: string, ingredients: seq<string>, instructions: string) {
    /** What the constructor guarantees: only the name must be non-empty;
        an empty ingredient list and empty instructions are accepted. */
    predicate Valid() {
      name != []
    }

    /** `Recipe.toJson()`: the ingredients are copied one by one into an array. */
    method ToJson() returns (j: Json)
      ensures j == RecipeJson(this)
    {
      var ings: seq<Json> := [];
      for i := 0 to |ingredients|
        invariant ings == IngredientsJson(ingredients)[..i]
      {
        ings := ings + [JString(ingredients[i])];
      }
      assert ings == IngredientsJson(ingredients);
      j := JObject(map["name" := JString(name), "instructions" := JString(instructions),
                       "ingredients" := JArray(ings)]);
    }
  }

  /** `new Recipe(name, ingredients, instructions)`: the name is checked
      first (null or empty), then the ingredients (null), then the
      instructions (null). */
  function NewRecipe(name: Option<string>, ingredients: Option<seq<string>>, instructions: Option<string>)
    : (r: Result<Recipe>)
    ensures r.Ok? <==> Present(name) && ingredients.Some? && instructions.Some?
    ensures r.Ok? ==> r.value.Valid() && r.value.name == name.value
                      && r.value.ingredients == ingredients.value
                      && r.value.instructions == instructions.value
    ensures !Present(name) ==> r == Err(InvalidArgument("Recipe name cannot be null or empty."))
    ensures Present(name) && ingredients.None? ==> r == Err(InvalidArgument("Ingredients cannot be null."))
    ensures Present(name) && ingredients.Some? && instructions.None? ==>
              r == Err(InvalidArgument("Instructions cannot be null."))
  {
    if !Present(name) then Err(InvalidArgument("Recipe name cannot be null or empty."))
    else if ingredients.None? then Err(InvalidArgument("Ingredients cannot be null."))
    else if instructions.None? then Err(InvalidArgument("Instructions cannot be null."))
    else Ok(Recipe(name.value, ingredients.value, instructions.value))
  }

  /** Every well-formed recipe, including one with no ingredients and empty
      instructions, is one the constructor builds. */
  lemma NewRecipeBuildsEveryValid(r: Recipe)
    requires r.Valid()
    ensures NewRecipe(Some(r.name), Some(r.ingredients), Some(r.instructions)) == Ok(r)
  {
  }

  function IngredientsJson(ings: seq<string>): (r: seq<Json>)
    ensures |r| == |ings| && forall i :: 0 <= i < |ings| ==> r[i] == JString(ings[i])
  {
    seq(|ings|, i requires 0 <= i < |ings| => JString(ings[i]))
  }

  /** The JSON object `Recipe.toJson()` builds. */
  function RecipeJson(r: Recipe): Json {
    JObject(map["name" := JString(r.name), "instructions" := JString(r.instructions),
                "ingredients" := JArray(IngredientsJson(r.ingredients))])
  }
}
