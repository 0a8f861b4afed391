/** Goals (src/frontend/src/pages/GoalsPage.tsx): the progress percentage,
    the active rule, the goal-type label and the new-goal form. */
module GoalsPage {
  import opened Backend
  import Text
  import QueryCache

  /** `calculateProgress`: progress as a percentage of the target, capped
      at 100; 0 when the target is not positive. */
  function CalculateProgress(progress: int, target: int): real
  {
    if target > 0 then
      var pct := progress as real / target as real * 100.0;
      if pct < 100.0 then pct else 100.0
    else 0.0
  }

  /** The percentage is 0 for a non-positive target or no progress; for a non-negative
      progress it lies in [0, 100]; it is 100 exactly when the progress
      has reached a positive target, and below that it is the exact
      proportion. */
  lemma ProgressBounds(progress: int, target: int)
    ensures target <= 0 || progress == 0 ==> CalculateProgress(progress, target) == 0.0
    ensures progress >= 0 ==> 0.0 <= CalculateProgress(progress, target) <= 100.0
    ensures target > 0 ==> (CalculateProgress(progress, target) == 100.0 <==> progress >= target)
    ensures 0 < target && progress < target ==>
              CalculateProgress(progress, target) * target as real == progress as real * 100.0
  {
    if target > 0 {
      var t := target as real;
      var p := progress as real;
      assert p / t * 100.0 >= 100.0 <==> p >= t by {
        assert p / t * t == p;
      }
      if progress < target {
        assert p / t * 100.0 * t == p * 100.0;
      }
      if progress >= 0 {
        assert p / t >= 0.0;
      }
    }
  }

  /** More progress towards the same target never lowers the percentage. */
  lemma ProgressMonotone(p1: int, p2: int, target: int)
    requires p1 <= p2
    ensures CalculateProgress(p1, target) <= CalculateProgress(p2, target)
  {
    if target > 0 {
      assert p1 as real / target as real <= p2 as real / target as real;
    }
  }

  /** A goal is active while its end date (nanoseconds) is strictly after
      now (milliseconds scaled to nanoseconds). */
  predicate IsActive(goal: Goal, nowMs: int)
  {
    goal.endDate > nowMs * NanosPerMilli
  }

  /** A goal that has ended stays ended: activity only goes from true to
      false as time moves forward, and progress plays no part. */
  lemma ActiveOnlyEnds(goal: Goal, t1: int, t2: int)
    requires t1 <= t2
    ensures IsActive(goal, t2) ==> IsActive(goal, t1)
    ensures IsActive(goal, t1) <==> IsActive(goal.(progress := goal.target), t1)
  {
  }

  /** The label shown for each goal type. */
  function TypeLabel(t: GoalType): string
  {
    match t
    case WorkoutsPerWeek => "Workouts per Week"
    case Steps => "Steps"
    case Calories => "Calories"
    case Distance => "Distance"
    case Duration => "Duration"
  }

  /** `getGoalTypeLabel`: tests the keys workoutsPerWeek, steps, calories,
      distance and duration in that order; a string has none of them. */
  function GoalTypeLabel(w: Wire): string
  {
    if w.StringValue? then "Unknown"
    else if "workoutsPerWeek" in w.keys then TypeLabel(WorkoutsPerWeek)
    else if "steps" in w.keys then TypeLabel(Steps)
    else if "calories" in w.keys then TypeLabel(Calories)
    else if "distance" in w.keys then TypeLabel(Distance)
    else if "duration" in w.keys then TypeLabel(Duration)
    else "Unknown"
  }

  /** A single-key variant gets its own type's label, distinct labels for
      distinct types; the declared string form always shows "Unknown". */
  lemma LabelOfVariant(t: GoalType, u: GoalType)
    ensures GoalTypeLabel(ObjectVariant({GoalTypeName(t)})) == TypeLabel(t)
    ensures t != u ==> TypeLabel(t) != TypeLabel(u)
    ensures TypeLabel(t) != "Unknown"
    ensures GoalTypeLabel(StringValue(GoalTypeName(t))) == "Unknown"
  {
  }

  /** A variant carrying several keys shows the first in the fixed order. */
  lemma LabelPrecedence(keys: set<string>)
    requires "workoutsPerWeek" in keys
    ensures GoalTypeLabel(ObjectVariant(keys)) == "Workouts per Week"
  {
  }

  /** The form's own check: a description that is not blank, and a target
      and an end date that are not empty. */
  predicate FormComplete(description: string, target: string, endDate: string)
  {
    Text.Trim(description) != "" && target != "" && endDate != ""
  }

  /** The goal `handleSaveGoal` sends: the id is the decimal clock value,
      the goal type its enumeration string, progress 0, and both dates in
      nanoseconds. */
  function BuildGoal(description: string, goalType: GoalType, targetValue: int,
                     nowMs: nat, endMs: int): Goal
  {
    Goal(Text.DecimalString(nowMs), endMs * NanosPerMilli, StringValue(GoalTypeName(goalType)),
         Text.Trim(description), 0, targetValue, nowMs * NanosPerMilli)
  }

  /** A new goal starts with no progress (so at 0 percent), carries a non-blank trimmed
      description whenever the form passed its check, is active exactly
      when its end date is after the creation time, and has an id that
      reads back as the creation time. Its type is sent in the string form,
      which the label function shows as "Unknown". */
  lemma NewGoalFacts(description: string, goalType: GoalType, targetValue: int, nowMs: nat, endMs: int)
    requires Text.Trim(description) != ""
    ensures var g := BuildGoal(description, goalType, targetValue, nowMs, endMs);
            && g.progress == 0 && g.target == targetValue
            && g.description == Text.Trim(description) && !Text.Blank(g.description)
            && (IsActive(g, nowMs) <==> endMs > nowMs)
            && g.startDate == nowMs * NanosPerMilli
            && Text.DigitsValue(g.id) == nowMs
            && GoalTypeLabel(g.goalType) == "Unknown"
  {
    var g := BuildGoal(description, goalType, targetValue, nowMs, endMs);
    Text.TrimIdempotent(description);
    Text.TrimEmptyIffBlank(Text.Trim(description));
    Text.DecimalRoundTrip(nowMs);
    assert IsActive(g, nowMs) <==> endMs > nowMs;
  }

  /** The new-goal form's state. */
  class GoalForm {
    var description: string
    var goalType: GoalType
    var target: string
    var endDate: string
    var dialogOpen: bool

    constructor ()
      ensures description == "" && goalType == WorkoutsPerWeek && target == "" && endDate == ""
      ensures !dialogOpen
    {
      description := "";
      goalType := WorkoutsPerWeek;
      target := "";
      endDate := "";
      dialogOpen := false;
    }

    /** `handleSaveGoal`. `targetValue` is `BigInt(target)` and `endMs` is
        `new Date(endDate).getTime()`; `None` is a conversion that throws,
        which happens before any call and outside the handler's `try`. */
    method SaveGoal(client: QueryCache.QueryClient, nowMs: nat, targetValue: Option<int>,
                    endMs: Option<int>, hasActor: bool, backendOk: bool)
      returns (outcome: QueryCache.SaveOutcome, sent: Option<Goal>)
      modifies this, client
      ensures !FormComplete(old(description), old(target), old(endDate)) ==> outcome == QueryCache.Invalid
      ensures FormComplete(old(description), old(target), old(endDate)) && (targetValue.None? || endMs.None?)
              ==> outcome == QueryCache.Threw
      ensures outcome.Settled? <==>
                FormComplete(old(description), old(target), old(endDate)) && targetValue.Some? && endMs.Some?
      ensures outcome.Settled? ==>
                && outcome.result == QueryCache.ResultOf(hasActor, backendOk)
                && sent == Some(BuildGoal(old(description), old(goalType), targetValue.value, nowMs, endMs.value))
                && client.entries == QueryCache.AfterMutation(old(client.entries), QueryCache.SaveGoal, outcome.result)
      ensures !outcome.Settled? ==> sent == None && client.entries == old(client.entries)
      ensures outcome == QueryCache.Settled(QueryCache.Succeeded) ==>
                !dialogOpen && description == "" && target == "" && endDate == ""
                && goalType == old(goalType)
      ensures outcome != QueryCache.Settled(QueryCache.Succeeded) ==>
                dialogOpen == old(dialogOpen) && description == old(description) && target == old(target)
                && endDate == old(endDate) && goalType == old(goalType)
    {
      if Text.Trim(description) == "" || target == "" || endDate == "" {
        return QueryCache.Invalid, None;
      }
      if targetValue.None? || endMs.None? {
        return QueryCache.Threw, None;
      }
      var goal := BuildGoal(description, goalType, targetValue.value, nowMs, endMs.value);
      var result := client.Mutate(QueryCache.SaveGoal, hasActor, backendOk);
      if result == QueryCache.Succeeded {
        dialogOpen := false;
        description := "";
        target := "";
        endDate := "";
      }
      outcome, sent := QueryCache.Settled(result), Some(goal);
    }
  }
}
