/** A named exercise that holds its sets, in the order they were added. */
module Exercises {
  import opened Results
  import opened Json
  import opened ExerciseSets

  /** The observable state of an Exercise. */
  datatype ExerciseState = ExerciseState(name: string, sets: seq<SetState>) {
    predicate Valid() {
      name != [] && forall i :: 0 <= i < |sets| ==> sets[i].Valid()
    }
  }

  /** What the constructor checks and builds. */
  function NewExerciseState(name: Option<string>): Result<ExerciseState> {
    if !Present(name) then Err(InvalidArgument("Exercise name cannot be null or empty."))
    else Ok(ExerciseState(name.value, []))
  }

  /** The states of a list of set objects, in list order. */
  ghost function SetStates(ss: seq<ExerciseSet>): (r: seq<SetState>)
    reads ss
    ensures |r| == |ss|
  {
    if ss == [] then [] else SetStates(ss[..|ss| - 1]) + [ss[|ss| - 1].Value()]
  }

  /** Position `i` of the list of states is the state of the `i`-th object. */
  lemma {:induction false} SetStatesAt(ss: seq<ExerciseSet>, i: int)
    requires 0 <= i < |ss|
    ensures SetStates(ss)[i] == ss[i].Value()
  {
    if i < |ss| - 1 {
      SetStatesAt(ss[..|ss| - 1], i);
    }
  }

  function SetsJson(ss: seq<SetState>): (r: seq<Json>)
    ensures |r| == |ss| && forall i :: 0 <= i < |ss| ==> r[i] == SetJson(ss[i])
  {
    seq(|ss|, i requires 0 <= i < |ss| => SetJson(ss[i]))
  }

  /** `Exercise.toJson()`. */
  function ExerciseJson(e: ExerciseState): Json {
    JObject(map["name" := JString(e.name), "sets" := JArray(SetsJson(e.sets))])
  }

  class Exercise {
    const name: string
    var sets: seq<ExerciseSet>

    ghost predicate Valid()
      reads this, sets
    {
      name != [] && forall i :: 0 <= i < |sets| ==> sets[i].Valid()
    }

    /** The exercise as seen through its set objects, which other holders
        of the same objects may check off. */
    ghost function Value(): ExerciseState
      reads this, sets
    {
      ExerciseState(name, SetStates(sets))
    }

    /** A well-formed exercise object has a well-formed state. */
    lemma ValueValid()
      requires Valid()
      ensures Value().Valid()
    {
      forall i | 0 <= i < |sets|
        ensures Value().sets[i].Valid()
      {
        SetStatesAt(sets, i);
      }
    }

    constructor (name: string)
      requires name != []
      ensures Valid() && Value() == NewExerciseState(Some(name)).value
    {
      this.name := name;
      this.sets := [];
    }

    /** `new Exercise(name)`, which throws for a null or empty name. */
    static method New(name: Option<string>) returns (r: Result<Exercise>)
      ensures r.Ok? <==> Present(name)
      ensures r.Ok? ==> fresh(r.value) && r.value.Valid()
      ensures r.Ok? ==> r.value.Value() == NewExerciseState(name).value
      ensures r.Err? ==> r.error == NewExerciseState(name).error
    {
      if !Present(name) {
        return Err(InvalidArgument("Exercise name cannot be null or empty."));
      }
      var e := new Exercise(name.value);
      return Ok(e);
    }

    /** `addSet(set)`: a null set throws; any other set is appended. */
    method AddSet(s: ExerciseSet?) returns (out: Outcome)
      requires Valid() && (s != null ==> s.Valid())
      modifies this
      ensures Valid()
      ensures out.Pass? <==> s != null
      ensures out.Pass? ==> sets == old(sets) + [s] && Value().sets == old(Value().sets) + [s.Value()]
      ensures out.Fail? ==> sets == old(sets) && out.error == InvalidArgument("Exercise set cannot be null.")
    {
      if s == null {
        return Fail(InvalidArgument("Exercise set cannot be null."));
      }
      sets := sets + [s];
      return Pass;
    }

    /** `getName()`. */
    method GetName() returns (n: string)
      ensures n == name
    {
      n := name;
    }

    /** `getSets()`: a snapshot of the list; the set objects are shared. */
    method GetSets() returns (ss: seq<ExerciseSet>)
      ensures ss == sets
    {
      ss := sets;
    }

    method ToJson() returns (j: Json)
      ensures j == ExerciseJson(Value())
    {
      var items: seq<Json> := [];
      for i := 0 to |sets|
        invariant |items| == i
        invariant forall k :: 0 <= k < i ==> items[k] == SetJson(sets[k].Value())
      {
        var sj := sets[i].ToJson();
        items := items + [sj];
      }
      forall k | 0 <= k < |sets|
        ensures items[k] == SetsJson(SetStates(sets))[k]
      {
        SetStatesAt(sets, k);
      }
      assert items == SetsJson(SetStates(sets));
      j := JObject(map["name" := JString(name), "sets" := JArray(items)]);
    }
  }
}
