/** A meal: a name and its protein, carbohydrate and fat grams, all fixed
    when the meal is built. */
module Meals {
  import opened Results
  import opened Json

  datatype Meal = Meal(name: string, protein: int, carbs: int, fat: int) {
    predicate Valid() {
      name != [] && protein >= 0 && carbs >= 0 && fat >= 0
    }
  }

  /** `new Meal(name, protein, carbs, fat)`: a null or empty name throws,
      then any negative macro throws; zero grams are accepted. */
  function NewMeal(name: Option<string>, protein: int, carbs: int, fat: int): (r: Result<Meal>)
    ensures r.Ok? <==> Present(name) && protein >= 0 && carbs >= 0 && fat >= 0
    ensures r.Ok? ==> r.value.Valid()
    ensures r.Ok? ==> r.value.name == name.value && r.value.protein == protein
                      && r.value.carbs == carbs && r.value.fat == fat
    ensures !Present(name) ==> r == Err(InvalidArgument("Meal name cannot be null or empty."))
  {
    if !Present(name) then Err(InvalidArgument("Meal name cannot be null or empty."))
    else if protein < 0 || carbs < 0 || fat < 0 then Err(InvalidArgument("Macronutrients cannot be negative."))
    else Ok(Meal(name.value, protein, carbs, fat))
  }

  /** Every well-formed meal is one the constructor can build. */
  lemma NewMealBuildsEveryValid(m: Meal)
    requires m.Valid()
    ensures NewMeal(Some(m.name), m.protein, m.carbs, m.fat) == Ok(m)
  {
  }

  /** `Meal.toJson()`. */
  function MealJson(m: Meal): (j: Json)
    ensures j.JObject? && j.fields.Keys == {"name", "protein", "carbs", "fat"}
    ensures j.fields["name"] == JString(m.name) && j.fields["protein"] == JInt(m.protein)
            && j.fields["carbs"] == JInt(m.carbs) && j.fields["fat"] == JInt(m.fat)
  {
    JObject(map["name" := JString(m.name), "protein" := JInt(m.protein),
                "carbs" := JInt(m.carbs), "fat" := JInt(m.fat)])
  }
}
