/** A meal plan: the meals added so far, in order, and the protein, carbohydrate
    and fat totals summed over them. */
module MealPlans {
  import opened Results
  import opened Json
  import opened Meals

  /** The three macronutrients a meal records. */
  datatype Macro = Protein | Carbs | Fat

  /** The grams of one macronutrient in a meal. */
  function Grams(m: Meal, k: Macro): int {
    match k
    case Protein => m.protein
    case Carbs => m.carbs
    case Fat => m.fat
  }

  /** The sum of one macronutrient over a list of meals. */
  function Total(ms: seq<Meal>, k: Macro): (r: int)
    ensures ms == [] ==> r == 0
    ensures AllValid(ms) ==> r >= 0
  {
    if ms == [] then 0
    else
      assert AllValid(ms) ==> AllValid(ms[1..]) by {
        if AllValid(ms) {
          forall i | 0 <= i < |ms[1..]| ensures ms[1..][i].Valid() { assert ms[1..][i] == ms[i + 1]; }
        }
      }
      Grams(ms[0], k) + Total(ms[1..], k)
  }

  predicate AllValid(ms: seq<Meal>) {
    forall i :: 0 <= i < |ms| ==> ms[i].Valid()
  }

  /** Adding a meal at the end raises a total by exactly that meal's grams. */
  lemma {:induction false} TotalAppend(ms: seq<Meal>, m: Meal, k: Macro)
    ensures Total(ms + [m], k) == Total(ms, k) + Grams(m, k)
  {
    if ms != [] {
      assert (ms + [m])[1..] == ms[1..] + [m];
      TotalAppend(ms[1..], m, k);
    }
  }

  /** Meals never have negative grams, so no total is negative, and each
      meal's grams are bounded by the total. */
  lemma {:induction false} TotalNonNegative(ms: seq<Meal>, k: Macro)
    requires AllValid(ms)
    ensures Total(ms, k) >= 0
    ensures forall i :: 0 <= i < |ms| ==> Grams(ms[i], k) <= Total(ms, k)
  {
    if ms != [] {
      assert AllValid(ms[1..]);
      TotalNonNegative(ms[1..], k);
      forall i | 1 <= i < |ms|
        ensures Grams(ms[i], k) <= Total(ms, k)
      {
        assert ms[i] == ms[1..][i - 1];
      }
    }
  }

  function MealItemsJson(ms: seq<Meal>): (r: seq<Json>)
    ensures |r| == |ms| && forall i :: 0 <= i < |ms| ==> r[i] == MealJson(ms[i])
  {
    seq(|ms|, i requires 0 <= i < |ms| => MealJson(ms[i]))
  }

  /** `MealPlan.toJson()`: one element per meal, in plan order. */
  function MealsJson(ms: seq<Meal>): Json {
    JArray(MealItemsJson(ms))
  }

  class MealPlan {
    var meals: seq<Meal>

    ghost predicate Valid()
      reads this
    {
      AllValid(meals)
    }

    constructor ()
      ensures Valid() && meals == []
      ensures TotalProtein() == 0 && TotalCarbs() == 0 && TotalFat() == 0
    {
      meals := [];
    }

    /** `addMeal(meal)`: a null meal throws; any other is appended. */
    method AddMeal(m: Option<Meal>) returns (out: Outcome)
      requires Valid() && (m.Some? ==> m.value.Valid())
      modifies this
      ensures Valid()
      ensures out.Pass? <==> m.Some?
      ensures out.Pass? ==> meals == old(meals) + [m.value]
      ensures out.Pass? ==> TotalProtein() == old(TotalProtein()) + m.value.protein
      ensures out.Pass? ==> TotalCarbs() == old(TotalCarbs()) + m.value.carbs
      ensures out.Pass? ==> TotalFat() == old(TotalFat()) + m.value.fat
      ensures out.Fail? ==> meals == old(meals) && out.error == InvalidArgument("Meal cannot be null.")
    {
      if m.None? {
        return Fail(InvalidArgument("Meal cannot be null."));
      }
      TotalAppend(meals, m.value, Protein);
      TotalAppend(meals, m.value, Carbs);
      TotalAppend(meals, m.value, Fat);
      meals := meals + [m.value];
      return Pass;
    }

    /** `getMeals()`: a copy of the list. */
    method GetMeals() returns (ms: seq<Meal>)
      ensures ms == meals
    {
      ms := meals;
    }

    /** `getTotalProtein()`. */
    function TotalProtein(): (r: int)
      reads this
      ensures meals == [] ==> r == 0
      ensures Valid() ==> r >= 0
    {
      Total(meals, Protein)
    }

    /** `getTotalCarbs()`. */
    function TotalCarbs(): (r: int)
      reads this
      ensures meals == [] ==> r == 0
      ensures Valid() ==> r >= 0
    {
      Total(meals, Carbs)
    }

    /** `getTotalFat()`. */
    function TotalFat(): (r: int)
      reads this
      ensures meals == [] ==> r == 0
      ensures Valid() ==> r >= 0
    {
      Total(meals, Fat)
    }

    method ToJson() returns (j: Json)
      ensures j == MealsJson(meals)
    {
      var items: seq<Json> := [];
      for i := 0 to |meals|
        invariant items == MealItemsJson(meals)[..i]
      {
        items := items + [MealJson(meals[i])];
      }
      j := JArray(items);
    }
  }

  /** The totals of a plan read meal by meal: each total is the sum over the
      meals, is never negative, and bounds every single meal's grams. */
  lemma PlanTotals(p: MealPlan)
    requires p.Valid()
    ensures p.TotalProtein() >= 0 && p.TotalCarbs() >= 0 && p.TotalFat() >= 0
    ensures forall i :: 0 <= i < |p.meals| ==>
      p.meals[i].protein <= p.TotalProtein() && p.meals[i].carbs <= p.TotalCarbs() && p.meals[i].fat <= p.TotalFat()
  {
    TotalNonNegative(p.meals, Protein);
    TotalNonNegative(p.meals, Carbs);
    TotalNonNegative(p.meals, Fat);
  }
}
