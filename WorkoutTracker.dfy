/** The workout history: every recorded session, in the order the sessions
    were added (never re-sorted by date). */
module WorkoutTrackers {
  import opened Results
  import opened Json
  import opened ExerciseSets
  import opened Exercises
  import opened Workouts

  /** Every exercise object reachable from a list of workouts. */
  ghost function ExercisesOf(ws: seq<Workout>): set<Exercise>
    reads ws
  {
    set w, e | w in ws && e in w.exercises :: e
  }

  /** Every set object reachable from a set of exercises. */
  ghost function SetsIn(es: set<Exercise>): set<ExerciseSet>
    reads es
  {
    set e, s | e in es && s in e.sets :: s
  }

  /** Every set object reachable from a list of workouts. */
  ghost function AllSetsOf(ws: seq<Workout>): set<ExerciseSet>
    reads ws, ExercisesOf(ws)
  {
    SetsIn(ExercisesOf(ws))
  }

  /** What a workout in a list reaches, the list reaches. */
  lemma WorkoutReachable(ws: seq<Workout>, w: Workout)
    requires w in ws
    ensures forall e | e in w.exercises :: e in ExercisesOf(ws)
    ensures SetsOf(w.exercises) <= AllSetsOf(ws)
  {
  }

  /** A list whose workouts all occur in another reaches no more objects. */
  lemma ReachSubset(xs: seq<Workout>, ys: seq<Workout>)
    requires forall w | w in xs :: w in ys
    ensures ExercisesOf(xs) <= ExercisesOf(ys) && AllSetsOf(xs) <= AllSetsOf(ys)
  {
  }

  /** The states of a list of workout objects, in list order. */
  ghost function WorkoutStates(ws: seq<Workout>): (r: seq<WorkoutState>)
    reads ws, ExercisesOf(ws), AllSetsOf(ws)
    ensures |r| == |ws|
  {
    if ws == [] then []
    else
      WorkoutReachable(ws, ws[|ws| - 1]);
      ReachSubset(ws[..|ws| - 1], ws);
      WorkoutStates(ws[..|ws| - 1]) + [ws[|ws| - 1].Value()]
  }

  /** Position `i` of the list of states is the state of the `i`-th object. */
  lemma {:induction false} WorkoutStatesAt(ws: seq<Workout>, i: int)
    requires 0 <= i < |ws|
    ensures WorkoutStates(ws)[i] == ws[i].Value()
  {
    if i < |ws| - 1 {
      WorkoutStatesAt(ws[..|ws| - 1], i);
    }
  }

  /** A workout none of whose objects changed has the same state. */
  twostate lemma WorkoutUnchanged(w: Workout)
    requires unchanged(w) && unchanged(old(w.exercises)) && unchanged(old(SetsOf(w.exercises)))
    ensures w.Value() == old(w.Value())
  {
  }

  /** A tracker none of whose objects changed has the same state. */
  twostate lemma TrackerUnchanged(t: WorkoutTracker)
    requires unchanged(t) && unchanged(old(t.workouts))
    requires unchanged(old(ExercisesOf(t.workouts))) && unchanged(old(AllSetsOf(t.workouts)))
    ensures t.Value() == old(t.Value())
  {
  }

  /** A tracker none of whose objects changed is as well formed as it was. */
  twostate lemma TrackerStaysValid(t: WorkoutTracker)
    requires unchanged(t) && unchanged(old(t.workouts))
    requires unchanged(old(ExercisesOf(t.workouts))) && unchanged(old(AllSetsOf(t.workouts)))
    requires old(t.Valid())
    ensures t.Valid()
  {
  }

  function WorkoutItemsJson(ws: seq<WorkoutState>): (r: seq<Json>)
    ensures |r| == |ws| && forall i :: 0 <= i < |ws| ==> r[i] == WorkoutJson(ws[i])
  {
    seq(|ws|, i requires 0 <= i < |ws| => WorkoutJson(ws[i]))
  }

  /** `WorkoutTracker.toJson()`: one element per workout, in order. */
  function WorkoutsJson(ws: seq<WorkoutState>): Json {
    JArray(WorkoutItemsJson(ws))
  }

  class WorkoutTracker {
    var workouts: seq<Workout>

    ghost predicate Valid()
      reads this, workouts, ExercisesOf(workouts), AllSetsOf(workouts)
    {
      forall w | w in workouts :: WorkoutReachable(workouts, w); w.Valid()
    }

    ghost function Value(): seq<WorkoutState>
      reads this, workouts, ExercisesOf(workouts), AllSetsOf(workouts)
    {
      WorkoutStates(workouts)
    }

    /** A well-formed tracker holds well-formed workout states. */
    lemma ValueValid()
      requires Valid()
      ensures forall i :: 0 <= i < |Value()| ==> Value()[i].Valid()
    {
      forall i | 0 <= i < |workouts|
        ensures Value()[i].Valid()
      {
        WorkoutStatesAt(workouts, i);
        workouts[i].ValueValid();
      }
    }

    constructor ()
      ensures Valid() && workouts == [] && Value() == []
    {
      workouts := [];
    }

    /** `addWorkout(workout)`: a null workout throws; any other is appended. */
    method AddWorkout(w: Workout?) returns (out: Outcome)
      requires Valid() && (w != null ==> w.Valid())
      modifies this
      ensures Valid()
      ensures out.Pass? <==> w != null
      ensures out.Pass? ==> workouts == old(workouts) + [w] && Value() == old(Value()) + [w.Value()]
      ensures out.Fail? ==> workouts == old(workouts) && out.error == InvalidArgument("Workout cannot be null.")
    {
      if w == null {
        return Fail(InvalidArgument("Workout cannot be null."));
      }
      workouts := workouts + [w];
      assert workouts[..|workouts| - 1] == old(workouts);
      assert ExercisesOf(old(workouts)) == old(ExercisesOf(workouts));
      assert AllSetsOf(old(workouts)) == old(AllSetsOf(workouts));
      assert WorkoutStates(old(workouts)) == old(WorkoutStates(workouts));
      return Pass;
    }

    /** `getWorkouts()`: a copy of the list; changing the copy leaves the
        tracker as it was. */
    method GetWorkouts() returns (ws: seq<Workout>)
      ensures ws == workouts
    {
      ws := workouts;
    }

    method ToJson() returns (j: Json)
      ensures j == WorkoutsJson(Value())
    {
      ghost var v := Value();
      forall k | 0 <= k < |workouts|
        ensures v[k] == workouts[k].Value()
      {
        WorkoutStatesAt(workouts, k);
      }
      var items: seq<Json> := [];
      for i := 0 to |workouts|
        invariant |items| == i
        invariant forall k :: 0 <= k < i ==> items[k] == WorkoutJson(v[k])
      {
        var wj := workouts[i].ToJson();
        WorkoutUnchanged(workouts[i]);
        items := items + [wj];
      }
      TrackerUnchanged(this);
      assert items == WorkoutItemsJson(v);
      j := JArray(items);
    }
  }
}
