/** The whole application state: a user name, the workout history, the meal
    plan and the recipe library. The aggregate owns the three containers for
    its whole life and hands out references to them. */
module VitaSyncDatas {
  import opened Results
  import opened Json
  import opened Meals
  import opened Recipes
  import opened Workouts
  import opened WorkoutTrackers
  import opened MealPlans
  import opened RecipeLibraries

  /** The observable state of the aggregate. The name is whatever the
      constructor was given, `None` standing for a null name. */
  datatype DataState = DataState(name: Option<string>, workouts: seq<WorkoutState>,
                                 meals: seq<Meal>, recipes: seq<Recipe>) {
    predicate Valid() {
      && (forall i :: 0 <= i < |workouts| ==> workouts[i].Valid())
      && MealPlans.AllValid(meals)
      && RecipeLibraries.AllValid(recipes)
    }
  }

  /** `VitaSyncData.toJson()`. `JSONObject.put` drops a key whose value is
      null, so a null name leaves no "name" key at all. */
  function DataJson(d: DataState): (j: Json)
    ensures j.JObject? && ("name" in j.fields <==> d.name.Some?)
    ensures j.fields.Keys == if d.name.Some? then {"name", "workouts", "meals", "recipes"}
                             else {"workouts", "meals", "recipes"}
  {
    var containers := map["workouts" := WorkoutsJson(d.workouts), "meals" := MealsJson(d.meals),
                          "recipes" := RecipesJson(d.recipes)];
    JObject(if d.name.Some? then containers["name" := JString(d.name.value)] else containers)
  }

  class VitaSyncData {
    const name: Option<string>
    const tracker: WorkoutTracker
    const plan: MealPlan
    const library: RecipeLibrary

    ghost predicate Valid()
      reads this, tracker, tracker.workouts, ExercisesOf(tracker.workouts), AllSetsOf(tracker.workouts)
      reads plan, library
    {
      tracker.Valid() && plan.Valid() && library.Valid()
    }

    ghost function Value(): DataState
      reads this, tracker, tracker.workouts, ExercisesOf(tracker.workouts), AllSetsOf(tracker.workouts)
      reads plan, library
    {
      DataState(name, tracker.Value(), plan.meals, library.recipes)
    }

    /** A well-formed aggregate has a well-formed state. */
    lemma ValueValid()
      requires Valid()
      ensures Value().Valid()
    {
      tracker.ValueValid();
    }

    /** `new VitaSyncData(name)`: the name is stored as given, unchecked, and
        the three containers start empty. */
    constructor (name: Option<string>)
      ensures Valid() && fresh(tracker) && fresh(plan) && fresh(library)
      ensures Value() == DataState(name, [], [], [])
      ensures tracker.Value() == [] && plan.meals == [] && library.recipes == []
    {
      this.name := name;
      tracker := new WorkoutTracker();
      plan := new MealPlan();
      library := new RecipeLibrary();
    }

    method GetName() returns (n: Option<string>)
      ensures n == name
    {
      n := name;
    }

    /** `getWorkoutTracker()`: the owned tracker itself, not a copy. */
    method GetWorkoutTracker() returns (t: WorkoutTracker)
      ensures t == tracker
    {
      t := tracker;
    }

    /** `getMealPlan()`: the owned plan itself. */
    method GetMealPlan() returns (p: MealPlan)
      ensures p == plan
    {
      p := plan;
    }

    /** `getRecipeLibrary()`: the owned library itself. */
    method GetRecipeLibrary() returns (l: RecipeLibrary)
      ensures l == library
    {
      l := library;
    }

    method ToJson() returns (j: Json)
      ensures j == DataJson(Value())
    {
      var workouts := tracker.ToJson();
      TrackerUnchanged(tracker);
      var meals := plan.ToJson();
      var recipes := library.ToJson();
      var containers := map["workouts" := workouts, "meals" := meals, "recipes" := recipes];
      if name.Some? {
        j := JObject(containers["name" := JString(name.value)]);
      } else {
        j := JObject(containers);
      }
      TrackerUnchanged(tracker);
    }
  }
}
