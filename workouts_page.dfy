/** Workouts (src/frontend/src/pages/WorkoutsPage.tsx): editing the
    exercise list of the new-workout form, choosing the exercises worth
    saving, and the save itself. The form's list is a value the handlers
    replace, so it is a `seq` field reassigned by each method. */
module WorkoutsPage {
  import opened Backend
  import Text
  import Seqs
  import QueryCache

  /** The set every new exercise and `Add Set` start with. */
  const ZeroSet: SetEntry := SetEntry(None, 0.0, 0)

  /** The exercise `Add Exercise` appends and the form starts with. */
  const EmptyExercise: Exercise := Exercise("", [ZeroSet])

  /** An exercise is saved when its name is not blank and it has a set. */
  predicate IsValidExercise(ex: Exercise)
  {
    Text.Trim(ex.name) != "" && |ex.sets| > 0
  }

  function ValidExercises(exercises: seq<Exercise>): seq<Exercise>
  {
    Seqs.Filter(exercises, IsValidExercise)
  }

  /** The valid exercises are exactly those of the form that pass the
      test, in the form's order: filtering a list that grew at the end
      filters the old part and the new part separately. */
  lemma ValidExercisesMeaning(exercises: seq<Exercise>, more: seq<Exercise>)
    ensures forall ex :: ex in ValidExercises(exercises) <==> ex in exercises && IsValidExercise(ex)
    ensures ValidExercises(exercises + more) == ValidExercises(exercises) + ValidExercises(more)
  {
    var v := ValidExercises(exercises);
    forall ex ensures ex in v <==> ex in exercises && IsValidExercise(ex) {
      if ex in v {
        var i :| 0 <= i < |v| && v[i] == ex;
      }
      if ex in exercises && IsValidExercise(ex) {
        var i :| 0 <= i < |exercises| && exercises[i] == ex;
      }
    }
    Seqs.FilterConcat(exercises, more, IsValidExercise);
  }

  /** A freshly added exercise has a blank name, so adding one never
      changes what would be saved. */
  lemma AddedExerciseNotSaved(exercises: seq<Exercise>)
    ensures !IsValidExercise(EmptyExercise)
    ensures ValidExercises(exercises + [EmptyExercise]) == ValidExercises(exercises)
  {
    assert Text.Trim("") == "";
    Seqs.FilterConcat(exercises, [EmptyExercise], IsValidExercise);
    assert [EmptyExercise][1..] == [];
  }

  /** The form's own check before saving: a non-blank name and at least
      one valid exercise. */
  predicate CanSave(workoutName: string, exercises: seq<Exercise>)
  {
    Text.Trim(workoutName) != "" && ValidExercises(exercises) != []
  }

  /** The workout `handleSaveWorkout` sends. */
  function BuildWorkout(workoutName: string, exercises: seq<Exercise>, nowMs: nat,
                        durationValue: int, notes: string): Workout
  {
    Workout(Text.DecimalString(nowMs), durationValue, nowMs * NanosPerMilli, Text.Trim(workoutName),
            ValidExercises(exercises), Text.Trim(notes))
  }

  /** A saved workout has a non-blank trimmed name, trimmed notes, the
      creation time in nanoseconds, an id that reads back as that time,
      and only valid exercises — at least one whenever the form passed. */
  lemma BuiltWorkoutFacts(workoutName: string, exercises: seq<Exercise>, nowMs: nat,
                          durationValue: int, notes: string)
    requires CanSave(workoutName, exercises)
    ensures var w := BuildWorkout(workoutName, exercises, nowMs, durationValue, notes);
            && !Text.Blank(w.name) && w.name == Text.Trim(workoutName)
            && w.notes == Text.Trim(notes) && Text.Trim(w.notes) == w.notes
            && w.date == nowMs * NanosPerMilli && Text.DigitsValue(w.id) == nowMs
            && w.duration == durationValue
            && |w.exercises| >= 1 && |w.exercises| <= |exercises|
            && forall i :: 0 <= i < |w.exercises| ==> IsValidExercise(w.exercises[i]) && w.exercises[i] in exercises
  {
    Text.TrimIdempotent(workoutName);
    Text.TrimIdempotent(notes);
    Text.TrimEmptyIffBlank(Text.Trim(workoutName));
    Text.DecimalRoundTrip(nowMs);
  }

  /** The new-workout form's state. */
  class WorkoutForm {
    var workoutName: string
    var duration: string
    var notes: string
    var exercises: seq<Exercise>
    var dialogOpen: bool

    /** The form as the page first shows it, and as a successful save
        leaves it (the dialog aside). */
    predicate IsFresh()
      reads this
    {
      workoutName == "" && duration == "60" && notes == "" && exercises == [EmptyExercise]
    }

    constructor ()
      ensures IsFresh() && !dialogOpen
    {
      workoutName := "";
      duration := "60";
      notes := "";
      exercises := [EmptyExercise];
      dialogOpen := false;
    }

    /** `handleAddExercise`. */
    method AddExercise()
      modifies this
      ensures exercises == old(exercises) + [EmptyExercise]
      ensures workoutName == old(workoutName) && duration == old(duration) && notes == old(notes)
      ensures dialogOpen == old(dialogOpen)
    {
      exercises := exercises + [EmptyExercise];
    }

    /** `handleAddSet(i)`: one zero set appended to exercise `i` only. An
        index with no exercise throws and changes nothing. */
    method AddSet(i: int) returns (ok: bool)
      modifies this
      ensures ok <==> 0 <= i < |old(exercises)|
      ensures |exercises| == |old(exercises)|
      ensures ok ==> exercises[i].name == old(exercises)[i].name
                     && exercises[i].sets == old(exercises)[i].sets + [ZeroSet]
      ensures forall j :: 0 <= j < |exercises| && j != i ==> exercises[j] == old(exercises)[j]
      ensures workoutName == old(workoutName) && duration == old(duration) && notes == old(notes)
      ensures dialogOpen == old(dialogOpen)
    {
      if !(0 <= i < |exercises|) {
        return false;
      }
      exercises := exercises[i := exercises[i].(sets := exercises[i].sets + [ZeroSet])];
      ok := true;
    }

    /** `handleRemoveExercise(i)`: exactly the entry at `i` goes, the rest
        keep their order. */
    method RemoveExercise(i: int)
      modifies this
      ensures exercises == Seqs.RemoveAt(old(exercises), i)
      ensures 0 <= i < |old(exercises)| ==>
                multiset(exercises) + multiset{old(exercises)[i]} == multiset(old(exercises))
      ensures workoutName == old(workoutName) && duration == old(duration) && notes == old(notes)
      ensures dialogOpen == old(dialogOpen)
    {
      if 0 <= i < |exercises| {
        assert exercises == exercises[..i] + [exercises[i]] + exercises[i + 1..];
      }
      exercises := Seqs.RemoveAt(exercises, i);
    }

    /** Typing an exercise name. An index with no exercise throws. */
    method SetExerciseName(i: int, name: string) returns (ok: bool)
      modifies this
      ensures ok <==> 0 <= i < |old(exercises)|
      ensures exercises == if ok then old(exercises)[i := old(exercises)[i].(name := name)] else old(exercises)
      ensures workoutName == old(workoutName) && duration == old(duration) && notes == old(notes)
      ensures dialogOpen == old(dialogOpen)
    {
      if !(0 <= i < |exercises|) {
        return false;
      }
      exercises := exercises[i := exercises[i].(name := name)];
      ok := true;
    }

    /** Typing a weight: `parseFloat(value) || 0`, where `parsed` is the
        number `parseFloat` reads (`None` for NaN). */
    method SetWeight(i: int, j: int, parsed: Option<real>) returns (ok: bool)
      modifies this
      ensures ok <==> 0 <= i < |old(exercises)| && 0 <= j < |old(exercises)[i].sets|
      ensures ok ==> var w := if parsed.Some? then parsed.value else 0.0;
                     exercises == old(exercises)[i := old(exercises)[i].(sets :=
                                    old(exercises)[i].sets[j := old(exercises)[i].sets[j].(weight := w)])]
      ensures !ok ==> exercises == old(exercises)
      ensures workoutName == old(workoutName) && duration == old(duration) && notes == old(notes)
      ensures dialogOpen == old(dialogOpen)
    {
      if !(0 <= i < |exercises| && 0 <= j < |exercises[i].sets|) {
        return false;
      }
      var w := if parsed.Some? then parsed.value else 0.0;
      exercises := exercises[i := exercises[i].(sets := exercises[i].sets[j := exercises[i].sets[j].(weight := w)])];
      ok := true;
    }

    /** Typing reps: `BigInt(value || 0)`. An empty field gives 0; `parsed`
        is `BigInt(value)` otherwise, `None` when it throws, which leaves
        the form unchanged. */
    method SetReps(i: int, j: int, value: string, parsed: Option<int>) returns (ok: bool)
      modifies this
      ensures ok <==> 0 <= i < |old(exercises)| && 0 <= j < |old(exercises)[i].sets|
                      && (value == "" || parsed.Some?)
      ensures ok ==> var r := if value == "" then 0 else parsed.value;
                     exercises == old(exercises)[i := old(exercises)[i].(sets :=
                                    old(exercises)[i].sets[j := old(exercises)[i].sets[j].(reps := r)])]
      ensures !ok ==> exercises == old(exercises)
      ensures workoutName == old(workoutName) && duration == old(duration) && notes == old(notes)
      ensures dialogOpen == old(dialogOpen)
    {
      if !(0 <= i < |exercises| && 0 <= j < |exercises[i].sets|) || (value != "" && parsed.None?) {
        return false;
      }
      var r := if value == "" then 0 else parsed.value;
      exercises := exercises[i := exercises[i].(sets := exercises[i].sets[j := exercises[i].sets[j].(reps := r)])];
      ok := true;
    }

    /** The reset after a successful save. */
    method Reset()
      modifies this
      ensures IsFresh() && dialogOpen == old(dialogOpen)
    {
      workoutName := "";
      duration := "60";
      notes := "";
      exercises := [EmptyExercise];
    }

    /** `handleSaveWorkout`. `durationValue` is `BigInt(duration)`, `None`
        when it throws (before any call, outside the `try`). */
    method SaveWorkout(client: QueryCache.QueryClient, nowMs: nat, durationValue: Option<int>,
                       hasActor: bool, backendOk: bool)
      returns (outcome: QueryCache.SaveOutcome, sent: Option<Workout>)
      modifies this, client
      ensures outcome == QueryCache.Invalid <==> !CanSave(old(workoutName), old(exercises))
      ensures outcome == QueryCache.Threw <==> outcome != QueryCache.Invalid && durationValue.None?
      ensures outcome.Settled? ==>
                && outcome.result == QueryCache.ResultOf(hasActor, backendOk)
                && sent == Some(BuildWorkout(old(workoutName), old(exercises), nowMs, durationValue.value, old(notes)))
                && client.entries == QueryCache.AfterMutation(old(client.entries), QueryCache.SaveWorkout, outcome.result)
      ensures !outcome.Settled? ==> sent == None && client.entries == old(client.entries)
      ensures outcome == QueryCache.Settled(QueryCache.Succeeded) ==> IsFresh() && !dialogOpen
      ensures outcome != QueryCache.Settled(QueryCache.Succeeded) ==>
                workoutName == old(workoutName) && duration == old(duration) && notes == old(notes)
                && exercises == old(exercises) && dialogOpen == old(dialogOpen)
    {
      if !CanSave(workoutName, exercises) {
        return QueryCache.Invalid, None;
      }
      if durationValue.None? {
        return QueryCache.Threw, None;
      }
      var workout := BuildWorkout(workoutName, exercises, nowMs, durationValue.value, notes);
      var result := client.Mutate(QueryCache.SaveWorkout, hasActor, backendOk);
      if result == QueryCache.Succeeded {
        dialogOpen := false;
        Reset();
      }
      outcome, sent := QueryCache.Settled(result), Some(workout);
    }
  }
}
