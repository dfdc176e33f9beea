/** Reading the application state back from its JSON document. The decoding
    functions say what a document means: the state it describes, or the first
    error met when its fields are read in the order the reader reads them.
    The parse methods rebuild the objects step by step, as the reader does,
    and are proved to agree with the decoding functions. */
module JsonReaders {
  import opened Results
  import opened Json
  import opened Dates
  import opened ExerciseSets
  import opened Exercises
  import opened Workouts
  import opened WorkoutTrackers
  import opened Meals
  import opened MealPlans
  import opened Recipes
  import opened RecipeLibraries
  import opened VitaSyncDatas

  // ---------------------------------------------------------------------
  // Arrays: elements are decoded one after another, in document order.
  // ---------------------------------------------------------------------

  /** Decodes every element of an array; the first element that fails stops
      the whole array. */
  function DecodeAll<T>(items: seq<Json>, dec: Json -> Result<T>): (r: Result<seq<T>>)
    ensures r.Ok? ==> |r.value| == |items|
  {
    if items == [] then Ok([])
    else
      var init :- DecodeAll(items[..|items| - 1], dec);
      var last :- dec(items[|items| - 1]);
      Ok(init + [last])
  }

  /** A decoded array holds, at each position, the value of the element at
      that position. */
  lemma {:induction false} DecodeAllElements<T>(items: seq<Json>, dec: Json -> Result<T>)
    requires DecodeAll(items, dec).Ok?
    ensures forall i :: 0 <= i < |items| ==> dec(items[i]) == Ok(DecodeAll(items, dec).value[i])
  {
    if items != [] {
      DecodeAllElements(items[..|items| - 1], dec);
    }
  }

  /** The position of the first element that does not decode, or the length
      of the array when every element decodes. */
  function FirstFailure<T>(items: seq<Json>, dec: Json -> Result<T>): (k: nat)
    ensures k <= |items|
  {
    if items == [] || dec(items[0]).Err? then 0
    else 1 + FirstFailure(items[1..], dec)
  }

  /** Every element before the first failure decodes, and the element at it
      does not. */
  lemma {:induction false} FirstFailureIsFirst<T>(items: seq<Json>, dec: Json -> Result<T>)
    ensures forall i :: 0 <= i < FirstFailure(items, dec) ==> dec(items[i]).Ok?
    ensures FirstFailure(items, dec) < |items| ==> dec(items[FirstFailure(items, dec)]).Err?
  {
    if items != [] && dec(items[0]).Ok? {
      FirstFailureIsFirst(items[1..], dec);
      forall i | 1 <= i < FirstFailure(items, dec)
        ensures dec(items[i]).Ok?
      {
        assert items[i] == items[1..][i - 1];
      }
    }
  }

  /** The values of the elements before the first failure. */
  function DecodedPrefix<T>(items: seq<Json>, dec: Json -> Result<T>): (r: seq<T>)
    ensures |r| == FirstFailure(items, dec)
  {
    var k := FirstFailure(items, dec);
    FirstFailureIsFirst(items, dec);
    seq(k, i requires 0 <= i < k => dec(items[i]).value)
  }

  /** An array decodes exactly when no element fails; it then yields every
      element's value in order, and otherwise the error of the first element
      that fails. */
  lemma {:induction false} DecodeAllFirstFailure<T>(items: seq<Json>, dec: Json -> Result<T>)
    ensures DecodeAll(items, dec).Ok? <==> FirstFailure(items, dec) == |items|
    ensures DecodeAll(items, dec).Ok? ==> DecodeAll(items, dec).value == DecodedPrefix(items, dec)
    ensures DecodeAll(items, dec).Err? ==>
              (FirstFailure(items, dec) < |items| && dec(items[FirstFailure(items, dec)]).Err? &&
               DecodeAll(items, dec).error == dec(items[FirstFailure(items, dec)]).error)
  {
    FirstFailureIsFirst(items, dec);
    if items != [] {
      var init := items[..|items| - 1];
      DecodeAllFirstFailure(init, dec);
      FirstFailureIsFirst(init, dec);
      var k, k' := FirstFailure(init, dec), FirstFailure(items, dec);
      if k < |init| {
        assert dec(items[k]).Err?;
        assert k' == k;
      } else if dec(items[|items| - 1]).Err? {
        assert k' == |items| - 1;
      } else {
        assert k' == |items|;
        DecodeAllElements(items, dec);
      }
    }
  }

  /** Once a prefix has decoded, the first element after it that fails
      decides the error, and the values of the prefix are what was decoded
      before the failure. */
  lemma DecodeAllStopsAt<T>(items: seq<Json>, dec: Json -> Result<T>, k: int)
    requires 0 <= k < |items|
    requires DecodeAll(items[..k], dec).Ok? && dec(items[k]).Err?
    ensures FirstFailure(items, dec) == k
    ensures DecodeAll(items, dec) == Err(dec(items[k]).error)
    ensures DecodedPrefix(items, dec) == DecodeAll(items[..k], dec).value
  {
    var prefix := DecodeAll(items[..k], dec).value;
    DecodeAllElements(items[..k], dec);
    assert forall i :: 0 <= i < k ==> dec(items[..k][i]) == Ok(prefix[i]);
    assert forall i :: 0 <= i < k ==> dec(items[i]) == Ok(prefix[i]);
    FirstFailureIsFirst(items, dec);
    DecodeAllFirstFailure(items, dec);
  }

  /** Decoding one more element extends the decoded prefix by its value. */
  lemma DecodeAllSnoc<T>(items: seq<Json>, dec: Json -> Result<T>, i: int, decoded: seq<T>, x: T)
    requires 0 <= i < |items|
    requires DecodeAll(items[..i], dec) == Ok(decoded) && dec(items[i]) == Ok(x)
    ensures DecodeAll(items[..i + 1], dec) == Ok(decoded + [x])
  {
    assert items[..i + 1][..i] == items[..i];
  }

  /** An array whose elements all decode to given values decodes to those
      values, in order. */
  lemma {:induction false} DecodeAllInverse<T>(items: seq<Json>, xs: seq<T>, dec: Json -> Result<T>)
    requires |items| == |xs|
    requires forall i :: 0 <= i < |items| ==> dec(items[i]) == Ok(xs[i])
    ensures DecodeAll(items, dec) == Ok(xs)
  {
    if items != [] {
      DecodeAllInverse(items[..|items| - 1], xs[..|xs| - 1], dec);
      assert xs == xs[..|xs| - 1] + [xs[|xs| - 1]];
    }
  }

  // ---------------------------------------------------------------------
  // One decoding function per element kind, reading fields in the order
  // the reader reads them.
  // ---------------------------------------------------------------------

  /** A set: the target goes through the constructor's check, then the
      stored completed count is replayed as that many check-offs. */
  function DecodeSet(j: Json): (r: Result<SetState>)
    ensures r.Ok? ==> r.value.Valid()
    ensures !j.JObject? ==> r == Err(WrongType("JSONObject"))
    ensures j.JObject? && "targetReps" !in j.fields ==> r == Err(MissingField("targetReps"))
    ensures (j.JObject? && GetInt(j.fields, "targetReps").Ok? && GetInt(j.fields, "targetReps").value > 0
             && "completedReps" !in j.fields) ==> r == Err(MissingField("completedReps"))
  {
    var o :- AsObject(j);
    var target :- GetInt(o, "targetReps");
    var s :- NewSetState(target);
    var completed :- GetInt(o, "completedReps");
    ReplayedClamps(target, completed);
    Ok(Replayed(s, completed))
  }

  /** A stored set comes back with its target and with the stored completed
      count clamped to 0..target; a non-positive target is refused by the
      constructor's check. */
  lemma DecodeSetClamps(t: int, c: int)
    ensures t <= 0 ==> DecodeSet(JObject(map["targetReps" := JInt(t), "completedReps" := JInt(c)]))
                       == Err(InvalidArgument("Target reps must be greater than 0."))
    ensures t > 0 ==> DecodeSet(JObject(map["targetReps" := JInt(t), "completedReps" := JInt(c)]))
                      == Ok(SetState(t, Clamp(c, t)))
  {
    if t > 0 {
      ReplayedClamps(t, c);
    }
  }

  /** An exercise: its name goes through the constructor's check, then its
      sets are decoded in order. */
  function DecodeExercise(j: Json): (r: Result<ExerciseState>)
    ensures r.Ok? ==> r.value.Valid()
    ensures !j.JObject? ==> r == Err(WrongType("JSONObject"))
    ensures j.JObject? && "name" !in j.fields ==> r == Err(MissingField("name"))
    ensures j.JObject? && "name" in j.fields && j.fields["name"] == JString("") ==>
              r == Err(InvalidArgument("Exercise name cannot be null or empty."))
    ensures (j.JObject? && GetString(j.fields, "name").Ok? && GetString(j.fields, "name").value != []
             && "sets" !in j.fields) ==> r == Err(MissingField("sets"))
  {
    var o :- AsObject(j);
    var name :- GetString(o, "name");
    var e :- NewExerciseState(Some(name));
    var items :- GetArray(o, "sets");
    var sets :- DecodeAll(items, DecodeSet);
    DecodeAllElements(items, DecodeSet);
    Ok(e.(sets := sets))
  }

  /** A workout: its date text is parsed, then its exercises are decoded
      in order. */
  function DecodeWorkout(j: Json): (r: Result<WorkoutState>)
    ensures r.Ok? ==> r.value.Valid()
    ensures !j.JObject? ==> r == Err(WrongType("JSONObject"))
    ensures j.JObject? && "date" !in j.fields ==> r == Err(MissingField("date"))
    ensures j.JObject? && "date" in j.fields && j.fields["date"].JString? && ParseIso(j.fields["date"].str).Err? ==>
              r == Err(BadDate(j.fields["date"].str))
    ensures (j.JObject? && GetString(j.fields, "date").Ok? && ParseIso(GetString(j.fields, "date").value).Ok?
             && "exercises" !in j.fields) ==> r == Err(MissingField("exercises"))
  {
    var o :- AsObject(j);
    var text :- GetString(o, "date");
    var date :- ParseIso(text);
    // A parsed date is never null, so the constructor's check passes.
    var w := NewWorkoutState(Some(date)).value;
    var items :- GetArray(o, "exercises");
    var exercises :- DecodeAll(items, DecodeExercise);
    DecodeAllElements(items, DecodeExercise);
    Ok(w.(exercises := exercises))
  }

  /** A meal: name, protein, carbs and fat are read in that order and then
      go through the constructor's checks. */
  function DecodeMeal(j: Json): (r: Result<Meal>)
    ensures r.Ok? ==> r.value.Valid()
    ensures !j.JObject? ==> r == Err(WrongType("JSONObject"))
    ensures j.JObject? && "name" !in j.fields ==> r == Err(MissingField("name"))
    ensures j.JObject? && GetString(j.fields, "name").Ok? && "protein" !in j.fields ==> r == Err(MissingField("protein"))
    ensures (j.JObject? && GetString(j.fields, "name").Ok? && GetInt(j.fields, "protein").Ok?
             && "carbs" !in j.fields) ==> r == Err(MissingField("carbs"))
    ensures (j.JObject? && GetString(j.fields, "name").Ok? && GetInt(j.fields, "protein").Ok?
             && GetInt(j.fields, "carbs").Ok? && "fat" !in j.fields) ==> r == Err(MissingField("fat"))
    ensures (j.JObject? && GetString(j.fields, "name").Ok? && GetString(j.fields, "name").value != []
             && GetInt(j.fields, "protein").Ok? && GetInt(j.fields, "carbs").Ok? && GetInt(j.fields, "fat").Ok?
             && (GetInt(j.fields, "protein").value < 0 || GetInt(j.fields, "carbs").value < 0
                 || GetInt(j.fields, "fat").value < 0)) ==>
              r == Err(InvalidArgument("Macronutrients cannot be negative."))
    ensures (j.JObject? && GetString(j.fields, "name") == Ok([]) && GetInt(j.fields, "protein").Ok?
             && GetInt(j.fields, "carbs").Ok? && GetInt(j.fields, "fat").Ok?) ==>
              r == Err(InvalidArgument("Meal name cannot be null or empty."))
  {
    var o :- AsObject(j);
    var name :- GetString(o, "name");
    var protein :- GetInt(o, "protein");
    var carbs :- GetInt(o, "carbs");
    var fat :- GetInt(o, "fat");
    NewMeal(Some(name), protein, carbs, fat)
  }

  /** The cast `(String) ing` of one ingredient. */
  function DecodeIngredient(j: Json): (r: Result<string>)
    ensures r.Ok? <==> j.JString?
    ensures r.Ok? ==> j == JString(r.value)
    ensures r.Err? ==> r.error == WrongType("String")
  {
    if j.JString? then Ok(j.str) else Err(WrongType("String"))
  }

  /** A recipe: name, instructions, then the ingredients in order, and then
      the constructor's checks. */
  function DecodeRecipe(j: Json): (r: Result<Recipe>)
    ensures r.Ok? ==> r.value.Valid()
    ensures !j.JObject? ==> r == Err(WrongType("JSONObject"))
    ensures j.JObject? && "name" !in j.fields ==> r == Err(MissingField("name"))
    ensures j.JObject? && GetString(j.fields, "name").Ok? && "instructions" !in j.fields ==>
              r == Err(MissingField("instructions"))
    ensures (j.JObject? && GetString(j.fields, "name").Ok? && GetString(j.fields, "instructions").Ok?
             && "ingredients" !in j.fields) ==> r == Err(MissingField("ingredients"))
    ensures (j.JObject? && GetString(j.fields, "name").Ok? && GetString(j.fields, "instructions").Ok?
             && GetArray(j.fields, "ingredients").Ok?
             && exists k :: 0 <= k < |j.fields["ingredients"].items| && !j.fields["ingredients"].items[k].JString?) ==>
              r == Err(WrongType("String"))
    ensures (j.JObject? && GetString(j.fields, "name") == Ok([]) && GetString(j.fields, "instructions").Ok?
             && GetArray(j.fields, "ingredients").Ok?
             && DecodeAll(j.fields["ingredients"].items, DecodeIngredient).Ok?) ==>
              r == Err(InvalidArgument("Recipe name cannot be null or empty."))
  {
    var o :- AsObject(j);
    var name :- GetString(o, "name");
    var instructions :- GetString(o, "instructions");
    var items :- GetArray(o, "ingredients");
    // A non-string ingredient is a failing element, so the array fails
    // at its first failure, whose error is the cast's.
    DecodeAllFirstFailure(items, DecodeIngredient);
    FirstFailureIsFirst(items, DecodeIngredient);
    var ingredients :- DecodeAll(items, DecodeIngredient);
    NewRecipe(Some(name), Some(ingredients), Some(instructions))
  }

  /** `getJSONArray(key)` followed by decoding its elements in order. */
  function DecodeArray<T>(o: map<string, Json>, key: string, dec: Json -> Result<T>): (r: Result<seq<T>>)
    ensures r.Ok? ==> key in o && o[key].JArray? && DecodeAll(o[key].items, dec) == r
    ensures key !in o ==> r == Err(MissingField(key))
  {
    var items :- GetArray(o, key);
    DecodeAll(items, dec)
  }

  /** The three containers of a document, as decoded. */
  datatype Contents = Contents(workouts: seq<WorkoutState>, meals: seq<Meal>, recipes: seq<Recipe>)

  /** The workouts, the meals and the recipes arrays, each read only after
      the previous one decoded. */
  function DecodeContents(o: map<string, Json>): (r: Result<Contents>)
    ensures r.Ok? ==> DecodeArray(o, "workouts", DecodeWorkout) == Ok(r.value.workouts)
                      && DecodeArray(o, "meals", DecodeMeal) == Ok(r.value.meals)
                      && DecodeArray(o, "recipes", DecodeRecipe) == Ok(r.value.recipes)
    ensures "workouts" !in o ==> r == Err(MissingField("workouts"))
    ensures DecodeArray(o, "workouts", DecodeWorkout).Ok? && "meals" !in o ==> r == Err(MissingField("meals"))
    ensures (DecodeArray(o, "workouts", DecodeWorkout).Ok? && DecodeArray(o, "meals", DecodeMeal).Ok?
             && "recipes" !in o) ==> r == Err(MissingField("recipes"))
  {
    var workouts :- DecodeArray(o, "workouts", DecodeWorkout);
    var meals :- DecodeArray(o, "meals", DecodeMeal);
    var recipes :- DecodeArray(o, "recipes", DecodeRecipe);
    Ok(Contents(workouts, meals, recipes))
  }

  /** The whole document: the name, then the three containers. */
  function DecodeData(o: map<string, Json>): (r: Result<DataState>)
    ensures r.Ok? ==> r.value.Valid() && r.value.name.Some?
    ensures "name" !in o ==> r == Err(MissingField("name"))
    ensures GetString(o, "name").Ok? && DecodeContents(o).Err? ==> r == Err(DecodeContents(o).error)
  {
    var name :- GetString(o, "name");
    var c :- DecodeContents(o);
    DecodeAllElements(o["workouts"].items, DecodeWorkout);
    DecodeAllElements(o["meals"].items, DecodeMeal);
    DecodeAllElements(o["recipes"].items, DecodeRecipe);
    Ok(DataState(Some(name), c.workouts, c.meals, c.recipes))
  }

  /** A document whose three arrays are empty decodes to the given name and
      three empty containers. */
  lemma EmptyDocument(name: string)
    ensures DecodeData(map["name" := JString(name), "workouts" := JArray([]),
                           "meals" := JArray([]), "recipes" := JArray([])])
            == Ok(DataState(Some(name), [], [], []))
  {
  }

  // ---------------------------------------------------------------------
  // Round trips: what the writer produces, the reader reads back.
  // ---------------------------------------------------------------------

  lemma SetRoundTrip(s: SetState)
    requires s.Valid()
    ensures DecodeSet(SetJson(s)) == Ok(s)
  {
    ReplayRestores(s);
  }

  lemma ExerciseRoundTrip(e: ExerciseState)
    requires e.Valid()
    ensures DecodeExercise(ExerciseJson(e)) == Ok(e)
  {
    forall i | 0 <= i < |e.sets|
      ensures DecodeSet(SetsJson(e.sets)[i]) == Ok(e.sets[i])
    {
      SetRoundTrip(e.sets[i]);
    }
    DecodeAllInverse(SetsJson(e.sets), e.sets, DecodeSet);
  }

  lemma WorkoutRoundTrip(w: WorkoutState)
    requires w.Valid()
    ensures DecodeWorkout(WorkoutJson(w)) == Ok(w)
  {
    ParseToIso(w.date);
    forall i | 0 <= i < |w.exercises|
      ensures DecodeExercise(ExercisesJson(w.exercises)[i]) == Ok(w.exercises[i])
    {
      ExerciseRoundTrip(w.exercises[i]);
    }
    DecodeAllInverse(ExercisesJson(w.exercises), w.exercises, DecodeExercise);
  }

  lemma MealRoundTrip(m: Meal)
    requires m.Valid()
    ensures DecodeMeal(MealJson(m)) == Ok(m)
  {
    NewMealBuildsEveryValid(m);
  }

  lemma RecipeRoundTrip(r: Recipe)
    requires r.Valid()
    ensures DecodeRecipe(RecipeJson(r)) == Ok(r)
  {
    DecodeAllInverse(IngredientsJson(r.ingredients), r.ingredients, DecodeIngredient);
    NewRecipeBuildsEveryValid(r);
  }

  /** Every well-formed state with a name survives writing and reading back
      unchanged: the same name, and the same workouts, meals and recipes in
      the same order. */
  lemma DataRoundTrip(d: DataState)
    requires d.Valid() && d.name.Some?
    ensures DecodeData(DataJson(d).fields) == Ok(d)
  {
    WorkoutsRoundTrip(d.workouts);
    MealsRoundTrip(d.meals);
    RecipesRoundTrip(d.recipes);
  }

  lemma WorkoutsRoundTrip(ws: seq<WorkoutState>)
    requires forall i :: 0 <= i < |ws| ==> ws[i].Valid()
    ensures DecodeAll(WorkoutItemsJson(ws), DecodeWorkout) == Ok(ws)
  {
    forall i | 0 <= i < |ws|
      ensures DecodeWorkout(WorkoutItemsJson(ws)[i]) == Ok(ws[i])
    {
      WorkoutRoundTrip(ws[i]);
    }
    DecodeAllInverse(WorkoutItemsJson(ws), ws, DecodeWorkout);
  }

  lemma MealsRoundTrip(ms: seq<Meal>)
    requires MealPlans.AllValid(ms)
    ensures DecodeAll(MealItemsJson(ms), DecodeMeal) == Ok(ms)
  {
    forall i | 0 <= i < |ms|
      ensures DecodeMeal(MealItemsJson(ms)[i]) == Ok(ms[i])
    {
      MealRoundTrip(ms[i]);
    }
    DecodeAllInverse(MealItemsJson(ms), ms, DecodeMeal);
  }

  lemma RecipesRoundTrip(rs: seq<Recipe>)
    requires RecipeLibraries.AllValid(rs)
    ensures DecodeAll(RecipeItemsJson(rs), DecodeRecipe) == Ok(rs)
  {
    forall i | 0 <= i < |rs|
      ensures DecodeRecipe(RecipeItemsJson(rs)[i]) == Ok(rs[i])
    {
      assert rs[i] in rs;
      RecipeRoundTrip(rs[i]);
    }
    DecodeAllInverse(RecipeItemsJson(rs), rs, DecodeRecipe);
  }

  /** A state whose name is null is written without a "name" key, so the
      document cannot be read back. */
  lemma NullNameNotReadable(d: DataState)
    requires d.name.None?
    ensures DecodeData(DataJson(d).fields) == Err(MissingField("name"))
  {
  }

  // ---------------------------------------------------------------------
  // The reader's loops, building the objects.
  // ---------------------------------------------------------------------

  /** One set: the constructor, then `completedReps` calls of `checkOffRep`. */
  method ParseSet(j: Json) returns (r: Result<ExerciseSet>)
    ensures r.Ok? <==> DecodeSet(j).Ok?
    ensures r.Ok? ==> fresh(r.value) && r.value.Valid() && r.value.Value() == DecodeSet(j).value
    ensures r.Err? ==> r.error == DecodeSet(j).error
  {
    var o :- AsObject(j);
    var target :- GetInt(o, "targetReps");
    var s :- ExerciseSet.New(target);
    var completed :- GetInt(o, "completedReps");
    var i := 0;
    while i < completed
      invariant 0 <= i && (i <= completed || i == 0)
      invariant s.Valid() && s.Value() == Replayed(SetState(target, 0), i)
    {
      s.CheckOffRep();
      i := i + 1;
    }
    ReplayedClamps(target, i);
    ReplayedClamps(target, completed);
    return Ok(s);
  }

  /** One turn of the loop over an exercise's "sets": the set is parsed
      and, when it parses, added. */
  method ParseSetInto(item: Json, ex: Exercise) returns (out: Outcome)
    requires ex.Valid()
    modifies ex
    ensures ex.Valid()
    ensures out.Pass? <==> DecodeSet(item).Ok?
    ensures out.Pass? ==> ex.Value().sets == old(ex.Value().sets) + [DecodeSet(item).value]
    ensures out.Fail? ==> ex.Value() == old(ex.Value()) && out.error == DecodeSet(item).error
  {
    var s := ParseSet(item);
    if s.Err? {
      return Fail(s.error);
    }
    out := ex.AddSet(s.value);
  }

  /** The loop over an exercise's "sets": each set parsed and added, in
      document order, until one fails. */
  method ParseSetsInto(items: seq<Json>, ex: Exercise) returns (out: Outcome)
    requires ex.Valid()
    modifies ex
    ensures ex.Valid()
    ensures out.Pass? <==> DecodeAll(items, DecodeSet).Ok?
    ensures out.Pass? ==> ex.Value().sets == old(ex.Value().sets) + DecodeAll(items, DecodeSet).value
    ensures out.Fail? ==> out.error == DecodeAll(items, DecodeSet).error
  {
    ghost var decoded: seq<SetState> := [];
    for i := 0 to |items|
      invariant DecodeAll(items[..i], DecodeSet) == Ok(decoded)
      invariant ex.Valid() && ex.Value().sets == old(ex.Value().sets) + decoded
    {
      var step := ParseSetInto(items[i], ex);
      if step.Fail? {
        DecodeAllStopsAt(items, DecodeSet, i);
        return step;
      }
      DecodeAllSnoc(items, DecodeSet, i, decoded, DecodeSet(items[i]).value);
      decoded := decoded + [DecodeSet(items[i]).value];
    }
    assert items[..|items|] == items;
    return Pass;
  }

  /** One exercise: the name, the constructor, then its sets. */
  method ParseExercise(j: Json) returns (r: Result<Exercise>)
    ensures r.Ok? <==> DecodeExercise(j).Ok?
    ensures r.Ok? ==> fresh(r.value) && r.value.Valid() && r.value.Value() == DecodeExercise(j).value
    ensures r.Err? ==> r.error == DecodeExercise(j).error
  {
    var o :- AsObject(j);
    var name :- GetString(o, "name");
    var ex :- Exercise.New(Some(name));
    var items :- GetArray(o, "sets");
    var out := ParseSetsInto(items, ex);
    if out.Fail? {
      return Err(out.error);
    }
    return Ok(ex);
  }

  /** One turn of the loop over a workout's "exercises": the exercise is
      parsed and, when it parses, added. */
  method ParseExerciseInto(item: Json, w: Workout) returns (out: Outcome)
    requires w.Valid()
    modifies w
    ensures w.Valid()
    ensures out.Pass? <==> DecodeExercise(item).Ok?
    ensures out.Pass? ==> w.Value().exercises == old(w.Value().exercises) + [DecodeExercise(item).value]
    ensures out.Fail? ==> w.Value() == old(w.Value()) && out.error == DecodeExercise(item).error
  {
    var e := ParseExercise(item);
    WorkoutUnchanged(w);
    if e.Err? {
      return Fail(e.error);
    }
    out := w.AddExercise(e.value);
  }

  /** The loop over a workout's "exercises": each exercise parsed and
      added, in document order, until one fails. */
  method ParseExercisesInto(items: seq<Json>, w: Workout) returns (out: Outcome)
    requires w.Valid()
    modifies w
    ensures w.Valid()
    ensures out.Pass? <==> DecodeAll(items, DecodeExercise).Ok?
    ensures out.Pass? ==> w.Value().exercises == old(w.Value().exercises) + DecodeAll(items, DecodeExercise).value
    ensures out.Fail? ==> out.error == DecodeAll(items, DecodeExercise).error
  {
    ghost var decoded: seq<ExerciseState> := [];
    for i := 0 to |items|
      invariant DecodeAll(items[..i], DecodeExercise) == Ok(decoded)
      invariant w.Valid() && w.Value().exercises == old(w.Value().exercises) + decoded
    {
      var step := ParseExerciseInto(items[i], w);
      if step.Fail? {
        DecodeAllStopsAt(items, DecodeExercise, i);
        return step;
      }
      DecodeAllSnoc(items, DecodeExercise, i, decoded, DecodeExercise(items[i]).value);
      decoded := decoded + [DecodeExercise(items[i]).value];
    }
    assert items[..|items|] == items;
    return Pass;
  }

  /** One workout: the date, the constructor, then its exercises. */
  method ParseWorkout(j: Json) returns (r: Result<Workout>)
    ensures r.Ok? <==> DecodeWorkout(j).Ok?
    ensures r.Ok? ==> fresh(r.value) && r.value.Valid() && r.value.Value() == DecodeWorkout(j).value
    ensures r.Err? ==> r.error == DecodeWorkout(j).error
  {
    var o :- AsObject(j);
    var text :- GetString(o, "date");
    var date :- ParseIso(text);
    var w := new Workout(date);
    var items :- GetArray(o, "exercises");
    var out := ParseExercisesInto(items, w);
    if out.Fail? {
      return Err(out.error);
    }
    return Ok(w);
  }

  /** One turn of the loop of `parseWorkouts`: the workout is parsed and,
      when it parses, added to the tracker. */
  method ParseWorkoutInto(item: Json, tracker: WorkoutTracker) returns (out: Outcome)
    requires tracker.Valid()
    modifies tracker
    ensures tracker.Valid()
    ensures out.Pass? <==> DecodeWorkout(item).Ok?
    ensures out.Pass? ==> tracker.Value() == old(tracker.Value()) + [DecodeWorkout(item).value]
    ensures out.Fail? ==> tracker.Value() == old(tracker.Value()) && out.error == DecodeWorkout(item).error
  {
    var w := ParseWorkout(item);
    TrackerUnchanged(tracker);
    TrackerStaysValid(tracker);
    if w.Err? {
      return Fail(w.error);
    }
    label adding:
    out := tracker.AddWorkout(w.value);
    WorkoutUnchanged@adding(w.value);
  }

  /** `parseWorkouts`: each workout parsed and added to the tracker in
      document order. When an element fails, the workouts before it stay
      added and the rest are not read. */
  method ParseWorkouts(items: seq<Json>, tracker: WorkoutTracker) returns (out: Outcome)
    requires tracker.Valid()
    modifies tracker
    ensures tracker.Valid()
    ensures out.Pass? <==> DecodeAll(items, DecodeWorkout).Ok?
    ensures out.Fail? ==> out.error == DecodeAll(items, DecodeWorkout).error
    ensures out.Pass? ==> tracker.Value() == old(tracker.Value()) + DecodeAll(items, DecodeWorkout).value
    ensures tracker.Value() == old(tracker.Value()) + DecodedPrefix(items, DecodeWorkout)
  {
    ghost var decoded: seq<WorkoutState> := [];
    for i := 0 to |items|
      invariant DecodeAll(items[..i], DecodeWorkout) == Ok(decoded)
      invariant tracker.Valid()
      invariant tracker.Value() == old(tracker.Value()) + decoded
    {
      var step := ParseWorkoutInto(items[i], tracker);
      if step.Fail? {
        DecodeAllStopsAt(items, DecodeWorkout, i);
        return step;
      }
      ghost var x := DecodeWorkout(items[i]).value;
      DecodeAllSnoc(items, DecodeWorkout, i, decoded, x);
      decoded := decoded + [x];
    }
    assert items[..|items|] == items;
    DecodeAllFirstFailure(items, DecodeWorkout);
    return Pass;
  }

  /** `parseMeals`: each meal read, built and added in document order. */
  method ParseMeals(items: seq<Json>, plan: MealPlan) returns (out: Outcome)
    requires plan.Valid()
    modifies plan
    ensures plan.Valid()
    ensures out.Pass? <==> DecodeAll(items, DecodeMeal).Ok?
    ensures out.Fail? ==> out.error == DecodeAll(items, DecodeMeal).error
    ensures out.Pass? ==> plan.meals == old(plan.meals) + DecodeAll(items, DecodeMeal).value
    ensures plan.meals == old(plan.meals) + DecodedPrefix(items, DecodeMeal)
  {
    ghost var decoded: seq<Meal> := [];
    for i := 0 to |items|
      invariant DecodeAll(items[..i], DecodeMeal) == Ok(decoded)
      invariant plan.Valid()
      invariant plan.meals == old(plan.meals) + decoded
    {
      var m := DecodeMeal(items[i]);
      if m.Err? {
        DecodeAllStopsAt(items, DecodeMeal, i);
        return Fail(m.error);
      }
      var added := plan.AddMeal(Some(m.value));
      DecodeAllSnoc(items, DecodeMeal, i, decoded, m.value);
      decoded := decoded + [m.value];
    }
    assert items[..|items|] == items;
    DecodeAllFirstFailure(items, DecodeMeal);
    return Pass;
  }

  /** One recipe: name, instructions, each ingredient cast in turn, then
      the constructor. */
  method ParseRecipe(j: Json) returns (r: Result<Recipe>)
    ensures r == DecodeRecipe(j)
  {
    var o :- AsObject(j);
    var name :- GetString(o, "name");
    var instructions :- GetString(o, "instructions");
    var items :- GetArray(o, "ingredients");
    var ingredients: seq<string> := [];
    for k := 0 to |items|
      invariant DecodeAll(items[..k], DecodeIngredient) == Ok(ingredients)
    {
      if !items[k].JString? {
        DecodeAllStopsAt(items, DecodeIngredient, k);
        return Err(WrongType("String"));
      }
      DecodeAllSnoc(items, DecodeIngredient, k, ingredients, items[k].str);
      ingredients := ingredients + [items[k].str];
    }
    assert items[..|items|] == items;
    r := NewRecipe(Some(name), Some(ingredients), Some(instructions));
  }

  /** `parseRecipes`: each recipe parsed and added in document order. */
  method ParseRecipes(items: seq<Json>, library: RecipeLibrary) returns (out: Outcome)
    requires library.Valid()
    modifies library
    ensures library.Valid()
    ensures out.Pass? <==> DecodeAll(items, DecodeRecipe).Ok?
    ensures out.Fail? ==> out.error == DecodeAll(items, DecodeRecipe).error
    ensures out.Pass? ==> library.recipes == old(library.recipes) + DecodeAll(items, DecodeRecipe).value
    ensures library.recipes == old(library.recipes) + DecodedPrefix(items, DecodeRecipe)
  {
    ghost var decoded: seq<Recipe> := [];
    for i := 0 to |items|
      invariant DecodeAll(items[..i], DecodeRecipe) == Ok(decoded)
      invariant library.Valid()
      invariant library.recipes == old(library.recipes) + decoded
    {
      var recipe := ParseRecipe(items[i]);
      if recipe.Err? {
        DecodeAllStopsAt(items, DecodeRecipe, i);
        return Fail(recipe.error);
      }
      var added := library.AddRecipe(Some(recipe.value));
      DecodeAllSnoc(items, DecodeRecipe, i, decoded, recipe.value);
      decoded := decoded + [recipe.value];
    }
    assert items[..|items|] == items;
    DecodeAllFirstFailure(items, DecodeRecipe);
    return Pass;
  }

  /** The "workouts" array of `parseVitaSyncData`, fetched and
      parsed into the tracker. */
  method ReadWorkouts(o: map<string, Json>, tracker: WorkoutTracker) returns (out: Outcome)
    requires tracker.Valid()
    modifies tracker
    ensures tracker.Valid()
    ensures out.Pass? <==> DecodeArray(o, "workouts", DecodeWorkout).Ok?
    ensures out.Pass? ==> tracker.Value() == old(tracker.Value()) + DecodeArray(o, "workouts", DecodeWorkout).value
    ensures out.Fail? ==> out.error == DecodeArray(o, "workouts", DecodeWorkout).error
  {
    var items := GetArray(o, "workouts");
    if items.Err? {
      return Fail(items.error);
    }
    out := ParseWorkouts(items.value, tracker);
  }

  /** The "meals" array fetched and parsed into the plan. */
  method ReadMeals(o: map<string, Json>, plan: MealPlan) returns (out: Outcome)
    requires plan.Valid()
    modifies plan
    ensures plan.Valid()
    ensures out.Pass? <==> DecodeArray(o, "meals", DecodeMeal).Ok?
    ensures out.Pass? ==> plan.meals == old(plan.meals) + DecodeArray(o, "meals", DecodeMeal).value
    ensures out.Fail? ==> out.error == DecodeArray(o, "meals", DecodeMeal).error
  {
    var items := GetArray(o, "meals");
    if items.Err? {
      return Fail(items.error);
    }
    out := ParseMeals(items.value, plan);
  }

  /** The "recipes" array fetched and parsed into the library. */
  method ReadRecipes(o: map<string, Json>, library: RecipeLibrary) returns (out: Outcome)
    requires library.Valid()
    modifies library
    ensures library.Valid()
    ensures out.Pass? <==> DecodeArray(o, "recipes", DecodeRecipe).Ok?
    ensures out.Pass? ==> library.recipes == old(library.recipes) + DecodeArray(o, "recipes", DecodeRecipe).value
    ensures out.Fail? ==> out.error == DecodeArray(o, "recipes", DecodeRecipe).error
  {
    var items := GetArray(o, "recipes");
    if items.Err? {
      return Fail(items.error);
    }
    out := ParseRecipes(items.value, library);
  }

  /** The body of `parseVitaSyncData` after the name: the three containers
      filled in turn, each only after the previous one was read. */
  method ReadContents(o: map<string, Json>, tracker: WorkoutTracker, plan: MealPlan, library: RecipeLibrary)
    returns (out: Outcome)
    requires tracker.Valid() && plan.Valid() && library.Valid()
    requires tracker.Value() == [] && plan.meals == [] && library.recipes == []
    modifies tracker, plan, library
    ensures tracker.Valid() && plan.Valid() && library.Valid()
    ensures out.Pass? <==> DecodeContents(o).Ok?
    ensures out.Pass? ==> Contents(tracker.Value(), plan.meals, library.recipes) == DecodeContents(o).value
    ensures out.Fail? ==> out.error == DecodeContents(o).error
  {
    out := ReadWorkouts(o, tracker);
    if out.Fail? {
      return;
    }
    label workoutsRead:
    out := ReadMeals(o, plan);
    if out.Fail? {
      return;
    }
    out := ReadRecipes(o, library);
    TrackerUnchanged@workoutsRead(tracker);
    TrackerStaysValid@workoutsRead(tracker);
  }

  /** `parseVitaSyncData`: the name, a new aggregate, then its three
      containers filled in turn. The aggregate is returned only when the
      whole document decodes, and it then holds exactly the decoded state. */
  method ParseVitaSyncData(o: map<string, Json>) returns (r: Result<VitaSyncData>)
    ensures r.Ok? <==> DecodeData(o).Ok?
    ensures r.Ok? ==> fresh(r.value) && r.value.Valid() && r.value.Value() == DecodeData(o).value
    ensures r.Err? ==> r.error == DecodeData(o).error
  {
    var name :- GetString(o, "name");
    var data := new VitaSyncData(Some(name));
    var tracker := data.GetWorkoutTracker();
    var plan := data.GetMealPlan();
    var library := data.GetRecipeLibrary();
    var out := ReadContents(o, tracker, plan, library);
    if out.Fail? {
      return Err(out.error);
    }
    return Ok(data);
  }
}
