# VitaSync domain model and JSON reader, in Dafny

VitaSync is a personal fitness and nutrition tracker. This project models
its domain layer and the reader that rebuilds that layer from its JSON
document.

- **Workouts.** An `ExerciseSet` holds a target rep count and a completed count. `checkOffRep` raises the completed count by one, saturating at the target. An `Exercise` is a name plus its sets, in order. A `Workout` is a date plus its exercises. The `WorkoutTracker` keeps the workouts in the order they were added.
- **Nutrition.** A `Meal` is an immutable name with protein, carbohydrate and fat grams. The `MealPlan` appends meals and sums each macronutrient over them.
- **Recipes.** A `Recipe` is an immutable name, an ingredient list and instructions. The `RecipeLibrary` adds recipes and looks them up by name, ignoring letter case, taking the first match. It also filters by exact ingredient, deletes the first match, and edits a recipe by removing it, trying to build the replacement, and re-appending the original when that fails.
- **The aggregate.** `VitaSyncData` holds a user name and owns one tracker, one plan and one library. Its `toJson` writes all of it as one JSON object.
- **The reader.** `JsonReader.parseVitaSyncData` rebuilds the aggregate from that object. It reads the fields in a fixed order and replays the same constructors and `add*` calls, in document order. A set's completed count is restored by calling `checkOffRep` that many times.

How the Java shapes are modelled:

- **Classes mutated in place become Dafny classes.** `ExerciseSet`, `Exercise`, `Workout`, `WorkoutTracker`, `MealPlan`, `RecipeLibrary` and `VitaSyncData` have their mutable fields, and their methods state the new state.
- **Value views.** `ExerciseSet`, `Exercise`, `Workout` and `VitaSyncData` have a `Value()` that is a datatype (`SetState`, `ExerciseState`, `WorkoutState`, `DataState`). `WorkoutTracker.Value()` is the sequence of its workouts' states. `MealPlan` and `RecipeLibrary` hold only immutable values, so their contracts are stated directly over `meals` and `recipes`. Properties are proved on these values.
- **Immutable objects become datatypes.** `Meal` and `Recipe` are datatypes. Their constructors become functions that return a `Result`, whose error carries the Java exception message.
- **JSON is a small tree.** Objects, arrays, strings and integers.
- **The reader has two forms.**
  - Decoding functions (`DecodeSet` … `DecodeData`) say what a document means.
  - Parse methods follow the Java loops, building objects one at a time. Each is proved to agree with its decoding function.
- **Round trips are proved.** Decoding what `toJson` writes gives back every well-formed aggregate that has a name.

Where the written behaviour and the apparent intent differ, the model follows
the code:

- **A failed `editRecipe` does not restore the library as it was.** The original recipe is re-appended at the end, so the library keeps the same recipes but in a new order (`EditFailureReorders`).
- **An aggregate built with a null name cannot be read back.** `JSONObject.put` drops a key whose value is null, and the reader then fails on the missing `"name"` (`NullNameNotReadable`).
- **Duplicate names differing only in case hide an edit.** A successful edit appends the replacement after an older recipe of the same name. A later lookup then finds the older recipe (`EditHiddenByDuplicate`).

## Model

| member | source | states |
|---|---|---|
| Json.AsObject | src/main/persistence/JsonReader.java:61 | the `(JSONObject)` cast succeeds exactly on objects and yields that object's fields |
| Json.GetString | src/main/persistence/JsonReader.java:41 | succeeds exactly when the key is present and holds a string, returning that string; a missing key is a `MissingField` error naming it |
| Json.GetInt | src/main/persistence/JsonReader.java:73 | succeeds exactly when the key is present and holds an integer, returning it; a missing key is a `MissingField` error |
| Json.GetArray | src/main/persistence/JsonReader.java:45 | succeeds exactly when the key is present and holds an array, returning its elements; a missing key is a `MissingField` error |
| Dates.ToIsoString | src/main/model/Workout.java:68 | a date's ISO text is ten characters with dashes at positions 4 and 7 |
| Dates.ParseIso | src/main/persistence/JsonReader.java:62 | whatever parses is a real calendar date; text that does not parse is a `BadDate` error carrying the text |
| Dates.ParseToIso | src/main/model/Workout.java:68 | parsing the text written for a date gives the same date back |
| Dates.ToIsoOfParse | src/main/persistence/JsonReader.java:62 | parsing accepts only canonical text: writing the parsed date reproduces the text exactly |
| ExerciseSets.CheckedOffKeepsValid | src/main/model/ExerciseSet.java:33-37 | a check-off keeps 0 ≤ completed ≤ target, never changes the target, adds exactly one rep below the target and changes nothing at the target |
| ExerciseSets.ReplayedClamps | src/main/persistence/JsonReader.java:76-78 | n check-offs on a fresh set leave min(max(n, 0), target) reps completed |
| ExerciseSets.CompletedExactlyFromTarget | src/main/model/ExerciseSet.java:59-61 | a fresh set is completed exactly after target or more check-offs, and further check-offs leave it at the target |
| ExerciseSets.ReplayRestores | src/main/persistence/JsonReader.java:73-78 | replaying a well-formed set's own completed count on a fresh set of its target restores that set |
| ExerciseSets.ExerciseSet.constructor | src/main/model/ExerciseSet.java:20-26 | a positive target gives a well-formed set with that target and nothing completed |
| ExerciseSets.ExerciseSet.New | src/main/model/ExerciseSet.java:20-26 | construction succeeds exactly for a positive target, giving a fresh set with that target and 0 completed; otherwise it fails with the constructor's message |
| ExerciseSets.ExerciseSet.CheckOffRep | src/main/model/ExerciseSet.java:33-37 | keeps the set well formed; one more rep when below the target, no change at the target |
| ExerciseSets.ExerciseSet.GetCompletedReps | src/main/model/ExerciseSet.java:43-45 | returns the completed count |
| ExerciseSets.ExerciseSet.GetTargetReps | src/main/model/ExerciseSet.java:51-53 | returns the target |
| ExerciseSets.ExerciseSet.IsCompleted | src/main/model/ExerciseSet.java:59-61 | true exactly when the completed count equals the target |
| ExerciseSets.ExerciseSet.ToJson | src/main/model/ExerciseSet.java:68-73 | an object with exactly `targetReps` and `completedReps`, holding the current values |
| Exercises.Exercise.constructor | src/main/model/Exercise.java:23-29 | a non-empty name gives a well-formed exercise with that name and no sets |
| Exercises.Exercise.New | src/main/model/Exercise.java:23-29 | construction succeeds exactly for a present, non-empty name, giving a fresh exercise with no sets; otherwise it fails with the constructor's message |
| Exercises.Exercise.AddSet | src/main/model/Exercise.java:38-43 | a null set fails with the message and leaves the sets as they were; any other set is appended after the earlier ones, which keep their order |
| Exercises.Exercise.GetName | src/main/model/Exercise.java:49-51 | returns the name fixed at construction |
| Exercises.Exercise.GetSets | src/main/model/Exercise.java:57-59 | a snapshot of the list, in order; the set objects are shared, so check-offs through it show in the exercise, while later `addSet` calls do not change the snapshot |
| Exercises.Exercise.ValueValid | src/main/model/Exercise.java:23-43 | a well-formed exercise object has a non-empty name and only well-formed sets |
| Exercises.Exercise.ToJson | src/main/model/Exercise.java:66-75 | the name, and a `sets` array whose i-th element is the i-th set's JSON |
| Workouts.Workout.constructor | src/main/model/Workout.java:24-30 | a date gives a well-formed workout with that date and no exercises |
| Workouts.Workout.New | src/main/model/Workout.java:24-30 | construction succeeds exactly for a present date, giving a fresh workout with no exercises; a null date fails with the constructor's message |
| Workouts.Workout.AddExercise | src/main/model/Workout.java:39-44 | a null exercise fails with the message and changes nothing; any other exercise is appended, leaving the date and the earlier exercises unchanged |
| Workouts.Workout.GetDate | src/main/model/Workout.java:58-60 | returns the date fixed at construction |
| Workouts.Workout.GetExercises | src/main/model/Workout.java:50-52 | returns the exercises in order, as a value |
| Workouts.Workout.ValueValid | src/main/model/Workout.java:24-44 | a well-formed workout object holds only well-formed exercise states |
| Workouts.Workout.ToJson | src/main/model/Workout.java:66-75 | the date as its ISO text, and the exercises' JSON in list order |
| WorkoutTrackers.WorkoutTracker.constructor | src/main/model/WorkoutTracker.java:19-21 | a new tracker holds no workouts |
| WorkoutTrackers.WorkoutTracker.AddWorkout | src/main/model/WorkoutTracker.java:30-35 | a null workout fails with the message and changes nothing; any other workout is appended at the end, with no sort by date |
| WorkoutTrackers.WorkoutTracker.GetWorkouts | src/main/model/WorkoutTracker.java:41-43 | returns the workouts in order, as a value that does not alias the tracker's list |
| WorkoutTrackers.WorkoutTracker.ValueValid | src/main/model/WorkoutTracker.java:30-35 | a well-formed tracker holds only well-formed workout states |
| WorkoutTrackers.WorkoutTracker.ToJson | src/main/model/WorkoutTracker.java:49-56 | one element per workout, its JSON, in tracker order |
| Meals.NewMeal | src/main/model/Meal.java:22-33 | succeeds exactly for a present, non-empty name and no negative macro, zero grams included; the meal holds the arguments; a missing name fails with its message |
| Meals.MealJson | src/main/model/Meal.java:71-78 | an object with exactly the keys `name`, `protein`, `carbs` and `fat`, holding the meal's values (read back by `MealRoundTrip`) |
| Meals.NewMealBuildsEveryValid | src/main/model/Meal.java:22-33 | every well-formed meal is what the constructor builds from its own fields |
| MealPlans.Total | src/main/model/MealPlan.java:50-68 | the sum of one macronutrient over the meals: 0 for no meals, never negative over valid meals (additivity in `TotalAppend`) |
| MealPlans.MealPlan.TotalProtein | src/main/model/MealPlan.java:50-52 | the protein summed over the plan's meals: 0 for an empty plan, never negative for a well-formed plan |
| MealPlans.MealPlan.TotalCarbs | src/main/model/MealPlan.java:58-60 | the carbohydrates summed over the plan's meals: 0 for an empty plan, never negative for a well-formed plan |
| MealPlans.MealPlan.TotalFat | src/main/model/MealPlan.java:66-68 | the fat summed over the plan's meals: 0 for an empty plan, never negative for a well-formed plan |
| MealPlans.TotalAppend | src/main/model/MealPlan.java:50-68 | appending a meal raises each total by exactly that meal's grams |
| MealPlans.TotalNonNegative | src/main/model/MealPlan.java:50-68 | over valid meals a total is never negative and is at least any single meal's grams |
| MealPlans.PlanTotals | src/main/model/MealPlan.java:50-68 | the three totals of a plan are non-negative and bound each meal's grams |
| MealPlans.MealPlan.constructor | src/main/model/MealPlan.java:20-22 | a new plan has no meals and all three totals are 0 |
| MealPlans.MealPlan.AddMeal | src/main/model/MealPlan.java:31-36 | a null meal fails with the message and changes nothing; any other meal is appended and each total grows by its grams |
| MealPlans.MealPlan.GetMeals | src/main/model/MealPlan.java:42-44 | returns the meals in order, as a value |
| MealPlans.MealPlan.ToJson | src/main/model/MealPlan.java:74-81 | one element per meal, its JSON, in plan order |
| Recipes.NewRecipe | src/main/model/Recipe.java:22-35 | checks the name, then the ingredients, then the instructions, each failing with its message; empty ingredients and instructions are accepted; the recipe holds the arguments |
| Recipes.NewRecipeBuildsEveryValid | src/main/model/Recipe.java:22-35 | every recipe with a non-empty name is what the constructor builds from its own fields |
| Recipes.Recipe.ToJson | src/main/model/Recipe.java:65-75 | the name, the instructions, and the ingredients as strings in list order |
| RecipeLibraries.FirstMatch | src/main/model/RecipeLibrary.java:52-54 | the position found is in range, and a position inside the list names a recipe matching ignoring case |
| RecipeLibraries.FirstMatchIsFirst | src/main/model/RecipeLibrary.java:52-54 | no recipe before the first match matches |
| RecipeLibraries.Lookup | src/main/model/RecipeLibrary.java:48-55 | nothing for a null or empty name; whatever it finds is in the library and matches the name ignoring case (first match: `LookupFindsFirst`) |
| RecipeLibraries.LookupFindsFirst | src/main/model/RecipeLibrary.java:48-55 | a lookup finds something exactly when the name is present and non-empty and some recipe matches it ignoring case; what it finds is a match with no match before it |
| RecipeLibraries.Keep | src/main/model/RecipeLibrary.java:65-67 | the kept recipes are exactly those listing the ingredient, compared case-sensitively |
| RecipeLibraries.KeepConcat | src/main/model/RecipeLibrary.java:65-67 | filtering distributes over concatenation, so the kept recipes stay in library order |
| RecipeLibraries.Filter | src/main/model/RecipeLibrary.java:61-68 | a null or empty ingredient gives nothing; otherwise the order-preserving subsequence that lists it |
| RecipeLibraries.RecipeLibrary.GetRecipeByName | src/main/model/RecipeLibrary.java:48-55 | nothing for a null or empty name; a recipe of the library matching the name ignoring case, found whenever one exists; it is the first match, `Lookup` (`LookupFindsFirst`) |
| RecipeLibraries.RecipeLibrary.FilterRecipesByIngredient | src/main/model/RecipeLibrary.java:61-68 | empty for a null or empty ingredient; otherwise exactly the library's recipes that list the ingredient |
| RecipeLibraries.RemoveFirst | src/main/model/RecipeLibrary.java:80 | `List.remove` shortens the list by one when the recipe occurs, and otherwise leaves it alone |
| RecipeLibraries.RemoveFirstMultiset | src/main/model/RecipeLibrary.java:80 | removal takes out exactly one copy of the recipe and nothing else |
| RecipeLibraries.RemoveFirstKeepsValid | src/main/model/RecipeLibrary.java:80 | removal keeps every remaining recipe well formed |
| RecipeLibraries.RemoveFirstAtMatch | src/main/model/RecipeLibrary.java:78-80 | removing the looked-up recipe removes the first match's position and keeps all others in order |
| RecipeLibraries.Deleted | src/main/model/RecipeLibrary.java:74-84 | a successful delete needs a present name and shortens the library by one; a failed one leaves it as it was |
| RecipeLibraries.DeleteAtMatch | src/main/model/RecipeLibrary.java:78-81 | deleting a name that matches removes the first match's position and exactly one copy of it, and returns true |
| RecipeLibraries.DeleteRemovesFirstMatch | src/main/model/RecipeLibrary.java:74-84 | deletion succeeds exactly when the lookup finds a recipe; it then removes just the first match, keeping the rest in order; otherwise nothing changes |
| RecipeLibraries.Edited | src/main/model/RecipeLibrary.java:96-113 | an edit never changes the library's size; a successful one needs a present name and both new fields, and leaves the replacement last |
| RecipeLibraries.EditOutcome | src/main/model/RecipeLibrary.java:96-113 | an edit succeeds exactly when the lookup finds a recipe and both new ingredients and new instructions are given; the library's size never changes; with no match nothing changes |
| RecipeLibraries.EditSuccess | src/main/model/RecipeLibrary.java:104-108 | a successful edit removes the first match and appends a recipe with the caller's spelling of the name and the new contents |
| RecipeLibraries.EditFailureMovesOriginal | src/main/model/RecipeLibrary.java:104-112 | a failed edit of an existing recipe keeps the same multiset of recipes but moves the original to the end |
| RecipeLibraries.EditFailureReorders | src/main/model/RecipeLibrary.java:110 | a concrete library of two recipes in which a failed edit of the first leaves it last |
| RecipeLibraries.LookupAfterEdit | src/main/model/RecipeLibrary.java:96-108 | when one recipe matches the name, a lookup after a successful edit finds the replacement |
| RecipeLibraries.LookupAfterFailedEdit | src/main/model/RecipeLibrary.java:104-112 | when one recipe matches the name, a lookup after a failed edit still finds the original |
| RecipeLibraries.EditHiddenByDuplicate | src/main/model/RecipeLibrary.java:100-107 | with two names differing only in case, the edit replaces the first, and a later lookup finds the older second one |
| RecipeLibraries.RecipeLibrary.constructor | src/main/model/RecipeLibrary.java:19-21 | a new library holds no recipes |
| RecipeLibraries.RecipeLibrary.AddRecipe | src/main/model/RecipeLibrary.java:29-35 | returns false and changes nothing for a null recipe; otherwise appends it and returns true |
| RecipeLibraries.RecipeLibrary.GetAllRecipes | src/main/model/RecipeLibrary.java:40-42 | returns the recipes in order, as a value |
| RecipeLibraries.RecipeLibrary.DeleteRecipe | src/main/model/RecipeLibrary.java:74-84 | the new library and the result are the deletion described above; the library stays well formed |
| RecipeLibraries.RecipeLibrary.EditRecipe | src/main/model/RecipeLibrary.java:96-113 | the new library and the result are the edit described above; the library stays well formed |
| RecipeLibraries.RecipeLibrary.ToJson | src/main/model/RecipeLibrary.java:119-126 | one element per recipe, its JSON, in library order |
| VitaSyncDatas.DataJson | src/main/model/VitaSyncData.java:40-48 | the keys are exactly `name`, `workouts`, `meals` and `recipes`, except that a null name leaves out `name` |
| VitaSyncDatas.VitaSyncData.constructor | src/main/model/VitaSyncData.java:16-21 | the name is stored unchecked, and the tracker, plan and library are new and empty |
| VitaSyncDatas.VitaSyncData.GetName | src/main/model/VitaSyncData.java:23-25 | returns the constructor's name |
| VitaSyncDatas.VitaSyncData.GetWorkoutTracker | src/main/model/VitaSyncData.java:27-29 | returns the owned tracker itself, so changes through it are changes to the aggregate |
| VitaSyncDatas.VitaSyncData.GetMealPlan | src/main/model/VitaSyncData.java:31-33 | returns the owned plan itself |
| VitaSyncDatas.VitaSyncData.GetRecipeLibrary | src/main/model/VitaSyncData.java:35-37 | returns the owned library itself |
| VitaSyncDatas.VitaSyncData.ValueValid | src/main/model/VitaSyncData.java:16-21 | a well-formed aggregate has a well-formed state |
| VitaSyncDatas.VitaSyncData.ToJson | src/main/model/VitaSyncData.java:40-48 | the document built from the three containers' own JSON |
| JsonReaders.DecodeAll | src/main/persistence/JsonReader.java:60 | an array that decodes yields one value per element |
| JsonReaders.DecodeAllElements | src/main/persistence/JsonReader.java:59-86 | each decoded value is the value of the element at the same position, so document order is kept |
| JsonReaders.FirstFailure | src/main/persistence/JsonReader.java:59-86 | the position of the first element that fails is at most the array's length |
| JsonReaders.FirstFailureIsFirst | src/main/persistence/JsonReader.java:59-86 | every element before the first failure decodes, and the element at it does not |
| JsonReaders.DecodedPrefix | src/main/persistence/JsonReader.java:59-86 | the values decoded before the first failure: one per element before it |
| JsonReaders.DecodeAllFirstFailure | src/main/persistence/JsonReader.java:59-86 | an array decodes exactly when no element fails; it then yields the values in order, and otherwise the first failing element's error |
| JsonReaders.DecodeAllStopsAt | src/main/persistence/JsonReader.java:59-113 | once a prefix has decoded, a failing next element is the first failure and decides the error |
| JsonReaders.DecodeAllSnoc | src/main/persistence/JsonReader.java:59-113 | decoding one more element appends its value |
| JsonReaders.DecodeAllInverse | src/main/persistence/JsonReader.java:59-113 | elements that each decode to given values make the array decode to those values, in order |
| JsonReaders.DecodeSet | src/main/persistence/JsonReader.java:72-78 | a decoded set is well formed; a non-object, a missing `targetReps` or a missing `completedReps` is the matching error |
| JsonReaders.DecodeSetClamps | src/main/persistence/JsonReader.java:73-78 | a stored set with a non-positive target fails with the constructor's message; otherwise it comes back with its target and the stored count clamped to 0..target |
| JsonReaders.DecodeExercise | src/main/persistence/JsonReader.java:67-80 | a decoded exercise is well formed; a non-object, a missing or empty `name`, or a missing `sets` is the matching error |
| JsonReaders.DecodeWorkout | src/main/persistence/JsonReader.java:61-82 | a decoded workout is well formed; a non-object, a missing `date`, a date that does not parse, or a missing `exercises` is the matching error |
| JsonReaders.DecodeMeal | src/main/persistence/JsonReader.java:90-95 | a decoded meal is well formed; a missing `name`, `protein`, `carbs` or `fat` is the matching error; an empty name fails with "Meal name cannot be null or empty."; a negative macro fails with the constructor's message |
| JsonReaders.DecodeIngredient | src/main/persistence/JsonReader.java:108 | the `(String)` cast succeeds exactly on strings |
| JsonReaders.DecodeRecipe | src/main/persistence/JsonReader.java:102-110 | a decoded recipe is well formed; a missing `name`, `instructions` or `ingredients` is the matching error; a non-string ingredient fails the `(String)` cast; an empty name with readable ingredients fails with "Recipe name cannot be null or empty." |
| JsonReaders.DecodeArray | src/main/persistence/JsonReader.java:45-46 | decoding a keyed array succeeds only when the key holds an array whose elements all decode; a missing key is a `MissingField` error |
| JsonReaders.DecodeContents | src/main/persistence/JsonReader.java:44-54 | the three arrays decode in order; a missing `workouts`, `meals` or `recipes` key is reported when it is the first problem met |
| JsonReaders.DecodeData | src/main/persistence/JsonReader.java:39-57 | a decoded document is a well-formed state with a name; a missing `name` is reported first, then the containers' first error |
| JsonReaders.EmptyDocument | src/main/persistence/JsonReader.java:39-57 | empty `workouts`, `meals` and `recipes` arrays give the name and three empty containers |
| JsonReaders.SetRoundTrip | src/main/persistence/JsonReader.java:72-79 | reading a well-formed set's JSON gives the set back |
| JsonReaders.ExerciseRoundTrip | src/main/persistence/JsonReader.java:67-80 | reading a well-formed exercise's JSON gives the exercise back, sets in order |
| JsonReaders.WorkoutRoundTrip | src/main/persistence/JsonReader.java:61-82 | reading a well-formed workout's JSON gives the workout back, date and exercises included |
| JsonReaders.MealRoundTrip | src/main/persistence/JsonReader.java:90-96 | reading a well-formed meal's JSON gives the meal back |
| JsonReaders.RecipeRoundTrip | src/main/persistence/JsonReader.java:102-111 | reading a well-formed recipe's JSON gives the recipe back, ingredients in order |
| JsonReaders.WorkoutsRoundTrip | src/main/persistence/JsonReader.java:59-86 | reading the tracker's JSON array gives back every workout, in order |
| JsonReaders.MealsRoundTrip | src/main/persistence/JsonReader.java:88-98 | reading the plan's JSON array gives back every meal, in order |
| JsonReaders.RecipesRoundTrip | src/main/persistence/JsonReader.java:100-113 | reading the library's JSON array gives back every recipe, in order |
| JsonReaders.DataRoundTrip | src/main/persistence/JsonReader.java:39-57 | reading the JSON of any well-formed aggregate with a name gives an equal aggregate, every order and completed count included |
| JsonReaders.NullNameNotReadable | src/main/persistence/JsonReader.java:41 | the document written for an aggregate with a null name fails to read, on the missing `name` |
| JsonReaders.ParseSet | src/main/persistence/JsonReader.java:72-78 | the constructor followed by `completedReps` check-offs builds a fresh set whose state is the decoded one, and fails exactly when decoding does, with the same error |
| JsonReaders.ParseSetInto | src/main/persistence/JsonReader.java:71-80 | one loop turn: the exercise gains the decoded set, or stays as it was and reports the set's error |
| JsonReaders.ParseSetsInto | src/main/persistence/JsonReader.java:70-80 | the loop over `sets` appends the decoded sets in order, and fails exactly when the array does not decode |
| JsonReaders.ParseExercise | src/main/persistence/JsonReader.java:67-80 | builds a fresh exercise whose state is the decoded one, or fails with the decoder's error |
| JsonReaders.ParseExerciseInto | src/main/persistence/JsonReader.java:66-82 | one loop turn: the workout gains the decoded exercise, or stays as it was and reports the error |
| JsonReaders.ParseExercisesInto | src/main/persistence/JsonReader.java:65-82 | the loop over `exercises` appends the decoded exercises in order, and fails exactly when the array does not decode |
| JsonReaders.ParseWorkout | src/main/persistence/JsonReader.java:61-82 | builds a fresh workout whose state is the decoded one, or fails with the decoder's error |
| JsonReaders.ParseWorkoutInto | src/main/persistence/JsonReader.java:60-85 | one loop turn: the tracker gains the decoded workout, or stays as it was and reports the error |
| JsonReaders.ParseWorkouts | src/main/persistence/JsonReader.java:59-86 | `parseWorkouts` appends the decoded workouts in document order; on failure, it reports the first failing workout's error and the tracker keeps the workouts before it |
| JsonReaders.ParseMeals | src/main/persistence/JsonReader.java:88-98 | `parseMeals` appends the decoded meals in document order; on failure, it reports the first error and the plan keeps the meals before it |
| JsonReaders.ParseRecipe | src/main/persistence/JsonReader.java:102-110 | reading one recipe, ingredient by ingredient, gives exactly the decoded recipe or error |
| JsonReaders.ParseRecipes | src/main/persistence/JsonReader.java:100-113 | `parseRecipes` appends the decoded recipes in document order; on failure, it reports the first error and the library keeps the recipes before it |
| JsonReaders.ReadWorkouts | src/main/persistence/JsonReader.java:45-46 | the tracker gains the decoded `workouts` array, or the read fails with its error |
| JsonReaders.ReadMeals | src/main/persistence/JsonReader.java:49-50 | the plan gains the decoded `meals` array, or the read fails with its error |
| JsonReaders.ReadRecipes | src/main/persistence/JsonReader.java:53-54 | the library gains the decoded `recipes` array, or the read fails with its error |
| JsonReaders.ReadContents | src/main/persistence/JsonReader.java:44-54 | the three empty containers end up holding exactly the decoded contents, or the read fails with the first error |
| JsonReaders.ParseVitaSyncData | src/main/persistence/JsonReader.java:39-57 | builds a fresh, well-formed aggregate whose state is the decoded document, and fails exactly when decoding does, with the same error |

## Left out

- The user interface (`src/main/ui/`) is not part of this model. It is presentation and console glue.
- `JsonReader.read` and `readFile` are not modelled: they read the file and parse its text with `new JSONObject(text)`. The model starts from the parsed object.
- `JsonWriter` is not modelled: it is a thin file writer around `toJson`.
- The org.json text format is not modelled: no text parsing or printing, no key order, no `null` or boolean values, no floating-point numbers.
- `getInt` reads only integer nodes. The model does not follow org.json's lenient conversion of numeric strings and doubles.
- Exceptions are modelled as `Err`/`Fail` results carrying the exception's message or kind.
- `LocalDate` is modelled as the `Date` datatype for years 0000-9999 only, with its ISO `yyyy-mm-dd` text and strict parsing. Years outside that range, which `LocalDate` writes with a sign and more digits, are left out.
- Null ingredient elements are not modelled. The Java `Recipe` constructor accepts an ingredient list holding nulls, `toJson` writes such an element as JSON null, and the `(String)` cast then fails when reading it back. The model's ingredients are a sequence of strings, which cannot hold a null.
- RecipeLibraries.EqualsIgnoreCase: folds ASCII letters only, not the full Unicode case folding of `String.equalsIgnoreCase`.
- MealPlans.Total: integers are unbounded. Java's 32-bit `int` overflow in the totals and in the stored counts is not modelled.
- The JSON parse methods: a negative `completedReps` skips the replay loop, as in Java. The 32-bit loop counter is unbounded in the model.
- `Recipe` stores and returns the caller's ingredient list without copying. The model treats ingredients as an immutable sequence, so aliasing through that list is not captured.
- RecipeLibraries.RemoveFirst: `List.remove` compares with `Recipe.equals`, which the source does not override, so Java compares identities. The model compares recipe values. This differs only when two equal recipe values are distinct objects placed before the first name match, which the name check excludes for the looked-up recipe.
- Meal and Recipe getters are the datatypes' fields.
- The reader's nested loops are modelled one method per loop level and one per loop turn.
- `JsonReaders.ParseVitaSyncData`: on failure the Java code throws, and any partly filled objects are discarded. For the tracker, plan and library, the model states what each holds at the point of failure. For the objects dropped mid-way, it states nothing.
- `JsonReaders.DecodeSet`: a set whose stored `completedReps` exceeds the target reads back with the count clamped. This is the replay's behaviour, not a failure (see `DecodeSetClamps`).
