/** One set of an exercise: a target rep count and a completed count that
    check-offs raise one at a time, up to the target. */
module ExerciseSets {
  import opened Results
  import opened Json

  /** The observable state of an ExerciseSet. */
  datatype SetState = SetState(target: int, completed: int) {
    predicate Valid() {
      0 < target && 0 <= completed <= target
    }
    predicate Completed() {
      completed == target
    }
  }

  /** What the constructor checks and builds. */
  function NewSetState(targetReps: int): (r: Result<SetState>)
  {
    if targetReps <= 0 then Err(InvalidArgument("Target reps must be greater than 0."))
    else Ok(SetState(targetReps, 0))
  }

  /** The effect of one `checkOffRep`. */
  function CheckedOff(s: SetState): SetState {
    if s.completed < s.target then s.(completed := s.completed + 1) else s
  }

  /** The state after `n` check-offs in a row (none when `n <= 0`). */
  function Replayed(s: SetState, n: int): SetState
    decreases n
  {
    if n <= 0 then s else CheckedOff(Replayed(s, n - 1))
  }

  function Clamp(n: int, target: int): int {
    if n <= 0 then 0 else if n < target then n else target
  }

  /** A check-off keeps the set well formed, never touches the target, adds
      exactly one rep below the target and does nothing at the target. */
  lemma CheckedOffKeepsValid(s: SetState)
    requires s.Valid()
    ensures CheckedOff(s).Valid() && CheckedOff(s).target == s.target
    ensures !s.Completed() ==> CheckedOff(s).completed == s.completed + 1
    ensures s.Completed() ==> CheckedOff(s) == s
  {
  }

  /** Replaying `n` check-offs on a fresh set leaves min(max(n, 0), target)
      reps completed. */
  lemma {:induction false} ReplayedClamps(target: int, n: int)
    requires target > 0
    ensures Replayed(SetState(target, 0), n) == SetState(target, Clamp(n, target))
    decreases n
  {
    if n > 0 {
      ReplayedClamps(target, n - 1);
    }
  }

  /** A fresh set is completed after exactly `target` check-offs or more,
      and extra check-offs saturate at the target. */
  lemma CompletedExactlyFromTarget(target: int, n: int)
    requires target > 0
    ensures Replayed(SetState(target, 0), n).Completed() <==> n >= target
    ensures n >= target ==> Replayed(SetState(target, 0), n) == SetState(target, target)
  {
    ReplayedClamps(target, n);
  }

  /** Replaying a well-formed set's own completed count restores it. */
  lemma ReplayRestores(s: SetState)
    requires s.Valid()
    ensures Replayed(SetState(s.target, 0), s.completed) == s
  {
    ReplayedClamps(s.target, s.completed);
  }

  /** `ExerciseSet.toJson()`. */
  function SetJson(s: SetState): Json {
    JObject(map["targetReps" := JInt(s.target), "completedReps" := JInt(s.completed)])
  }

  class ExerciseSet {
    const targetReps: int
    var completedReps: int

    ghost predicate Valid()
      reads this
    {
      Value().Valid()
    }

    ghost function Value(): SetState
      reads this
    {
      SetState(targetReps, completedReps)
    }

    constructor (targetReps: int)
      requires targetReps > 0
      ensures Valid() && Value() == NewSetState(targetReps).value
    {
      this.targetReps := targetReps;
      this.completedReps := 0;
    }

    /** `new ExerciseSet(targetReps)`, which throws for a non-positive target. */
    static method New(targetReps: int) returns (r: Result<ExerciseSet>)
      ensures r.Ok? <==> targetReps > 0
      ensures r.Ok? ==> fresh(r.value) && r.value.Valid()
      ensures r.Ok? ==> r.value.targetReps == targetReps && r.value.completedReps == 0
      ensures r.Err? ==> r.error == NewSetState(targetReps).error
    {
      if targetReps <= 0 {
        return Err(InvalidArgument("Target reps must be greater than 0."));
      }
      var s := new ExerciseSet(targetReps);
      return Ok(s);
    }

    method CheckOffRep()
      requires Valid()
      modifies this
      ensures Valid() && Value() == CheckedOff(old(Value()))
      ensures old(completedReps) < targetReps ==> completedReps == old(completedReps) + 1
      ensures old(completedReps) == targetReps ==> completedReps == old(completedReps)
    {
      if completedReps < targetReps {
        completedReps := completedReps + 1;
      }
    }

    /** `getCompletedReps()`. */
    method GetCompletedReps() returns (n: int)
      ensures n == completedReps
    {
      n := completedReps;
    }

    /** `getTargetReps()`. */
    method GetTargetReps() returns (n: int)
      ensures n == targetReps
    {
      n := targetReps;
    }

    method IsCompleted() returns (b: bool)
      ensures b <==> Value().Completed()
    {
      b := completedReps == targetReps;
    }

    method ToJson() returns (j: Json)
      ensures j == SetJson(Value())
    {
      j := JObject(map["targetReps" := JInt(targetReps), "completedReps" := JInt(completedReps)]);
    }
  }
}
