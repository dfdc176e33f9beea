/** A dated workout session that holds its exercises, in the order they
    were added. */
module Workouts {
  import opened Results
  import opened Json
  import opened Dates
  import opened ExerciseSets
  import opened Exercises

  /** The observable state of a Workout. */
  datatype WorkoutState = WorkoutState(date: ValidDate, exercises: seq<ExerciseState>) {
    predicate Valid() {
      forall i :: 0 <= i < |exercises| ==> exercises[i].Valid()
    }
  }

  /** What the constructor checks and builds. */
  function NewWorkoutState(date: Option<ValidDate>): Result<WorkoutState> {
    if date.None? then Err(InvalidArgument("Date cannot be null."))
    else Ok(WorkoutState(date.value, []))
  }

  /** Every set object reachable from a list of exercises. */
  ghost function SetsOf(es: seq<Exercise>): set<ExerciseSet>
    reads es
  {
    set e, s | e in es && s in e.sets :: s
  }

  /** The sets of an exercise in a list are among the sets the list reaches. */
  lemma SetsReachable(es: seq<Exercise>, e: Exercise)
    requires e in es
    ensures forall s | s in e.sets :: s in SetsOf(es)
  {
  }

  /** A list whose exercises all occur in another reaches no more sets. */
  lemma SetsOfSubset(xs: seq<Exercise>, ys: seq<Exercise>)
    requires forall e | e in xs :: e in ys
    ensures SetsOf(xs) <= SetsOf(ys)
  {
  }

  /** The states of a list of exercise objects, in list order. */
  ghost function ExerciseStates(es: seq<Exercise>): (r: seq<ExerciseState>)
    reads es, SetsOf(es)
    ensures |r| == |es|
  {
    if es == [] then []
    else
      SetsReachable(es, es[|es| - 1]);
      SetsOfSubset(es[..|es| - 1], es);
      ExerciseStates(es[..|es| - 1]) + [es[|es| - 1].Value()]
  }

  /** Position `i` of the list of states is the state of the `i`-th object. */
  lemma {:induction false} ExerciseStatesAt(es: seq<Exercise>, i: int)
    requires 0 <= i < |es|
    ensures ExerciseStates(es)[i] == es[i].Value()
  {
    if i < |es| - 1 {
      ExerciseStatesAt(es[..|es| - 1], i);
    }
  }

  function ExercisesJson(es: seq<ExerciseState>): (r: seq<Json>)
    ensures |r| == |es| && forall i :: 0 <= i < |es| ==> r[i] == ExerciseJson(es[i])
  {
    seq(|es|, i requires 0 <= i < |es| => ExerciseJson(es[i]))
  }

  /** `Workout.toJson()`: the date in ISO form and the exercises in order. */
  function WorkoutJson(w: WorkoutState): Json {
    JObject(map["date" := JString(ToIsoString(w.date)), "exercises" := JArray(ExercisesJson(w.exercises))])
  }

  class Workout {
    const date: ValidDate
    var exercises: seq<Exercise>

    ghost predicate Valid()
      reads this, exercises, SetsOf(exercises)
    {
      forall e | e in exercises :: SetsReachable(exercises, e); e.Valid()
    }

    ghost function Value(): WorkoutState
      reads this, exercises, SetsOf(exercises)
    {
      WorkoutState(date, ExerciseStates(exercises))
    }

    /** A well-formed workout object has a well-formed state. */
    lemma ValueValid()
      requires Valid()
      ensures Value().Valid()
    {
      forall i | 0 <= i < |exercises|
        ensures Value().exercises[i].Valid()
      {
        ExerciseStatesAt(exercises, i);
        exercises[i].ValueValid();
      }
    }

    constructor (date: ValidDate)
      ensures Valid() && Value() == NewWorkoutState(Some(date)).value
    {
      this.date := date;
      this.exercises := [];
    }

    /** `new Workout(date)`, which throws for a null date. */
    static method New(date: Option<ValidDate>) returns (r: Result<Workout>)
      ensures r.Ok? <==> date.Some?
      ensures r.Ok? ==> fresh(r.value) && r.value.Valid()
      ensures r.Ok? ==> r.value.Value() == NewWorkoutState(date).value
      ensures r.Err? ==> r.error == NewWorkoutState(date).error
    {
      if date.None? {
        return Err(InvalidArgument("Date cannot be null."));
      }
      var w := new Workout(date.value);
      return Ok(w);
    }

    /** `addExercise(exercise)`: a null exercise throws; any other is appended. */
    method AddExercise(e: Exercise?) returns (out: Outcome)
      requires Valid() && (e != null ==> e.Valid())
      modifies this
      ensures Valid()
      ensures out.Pass? <==> e != null
      ensures out.Pass? ==> exercises == old(exercises) + [e]
      ensures out.Pass? ==> Value().exercises == old(Value().exercises) + [e.Value()]
      ensures out.Fail? ==> exercises == old(exercises) && out.error == InvalidArgument("Exercise cannot be null.")
    {
      if e == null {
        return Fail(InvalidArgument("Exercise cannot be null."));
      }
      exercises := exercises + [e];
      assert exercises[..|exercises| - 1] == old(exercises);
      assert SetsOf(old(exercises)) == old(SetsOf(exercises));
      assert ExerciseStates(old(exercises)) == old(ExerciseStates(exercises));
      return Pass;
    }

    /** `getDate()`. */
    method GetDate() returns (d: ValidDate)
      ensures d == date
    {
      d := date;
    }

    /** `getExercises()`: a copy of the list. */
    method GetExercises() returns (es: seq<Exercise>)
      ensures es == exercises
    {
      es := exercises;
    }

    method ToJson() returns (j: Json)
      ensures j == WorkoutJson(Value())
    {
      var items: seq<Json> := [];
      for i := 0 to |exercises|
        invariant |items| == i
        invariant forall k :: 0 <= k < i ==> items[k] == ExerciseJson(exercises[k].Value())
      {
        var ej := exercises[i].ToJson();
        items := items + [ej];
      }
      forall k | 0 <= k < |exercises|
        ensures items[k] == ExercisesJson(ExerciseStates(exercises))[k]
      {
        ExerciseStatesAt(exercises, k);
      }
      assert items == ExercisesJson(ExerciseStates(exercises));
      j := JObject(map["date" := JString(ToIsoString(date)), "exercises" := JArray(items)]);
    }
  }
}
