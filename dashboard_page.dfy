/** The dashboard (src/frontend/src/pages/DashboardPage.tsx): weekly
    counts, unwindowed totals, the number of active goals and the two
    "recent" lists. Collections are in the order the service returns them. */
module DashboardPage {
  import opened Backend
  import Seqs
  import GoalsPage

  /** Seven days in milliseconds. */
  const WeekMs: int := 7 * 24 * 60 * 60 * 1000

  /** The weekly window as written: a nanosecond timestamp, scaled down to
      milliseconds, strictly after a week before now. There is no upper
      bound. */
  predicate InWeek(timestampNs: int, nowMs: int)
  {
    timestampNs as real / 1_000_000.0 > (nowMs - WeekMs) as real
  }

  /** The window in whole nanoseconds: strictly after `now - 604800000` ms;
      the boundary itself is outside, and every later timestamp (even one
      in the future) is inside. */
  lemma InWeekExact(timestampNs: int, nowMs: int)
    ensures InWeek(timestampNs, nowMs) <==> timestampNs > (nowMs - 604_800_000) * NanosPerMilli
    ensures !InWeek((nowMs - WeekMs) * NanosPerMilli, nowMs)
    ensures timestampNs > nowMs * NanosPerMilli ==> InWeek(timestampNs, nowMs)
  {
    var a := (nowMs - WeekMs) as real;
    assert timestampNs as real / 1_000_000.0 > a <==> timestampNs as real > a * 1_000_000.0;
  }

  /** The `stats` memo. */
  datatype Stats = Stats(weekWorkouts: nat, weekActivities: nat, weekMeals: nat,
                         totalSteps: real, totalDistance: real, totalCalories: real,
                         activeGoals: nat)

  function WeekWorkouts(workouts: seq<Workout>, nowMs: int): seq<Workout>
  {
    Seqs.Filter(workouts, (w: Workout) => InWeek(w.date, nowMs))
  }

  function WeekActivities(activities: seq<Activity>, nowMs: int): seq<Activity>
  {
    Seqs.Filter(activities, (a: Activity) => InWeek(a.startTime, nowMs))
  }

  /** The goals page's rule, applied at the same `now`. */
  function ActiveGoals(goals: seq<Goal>, nowMs: int): seq<Goal>
  {
    Seqs.Filter(goals, (g: Goal) => GoalsPage.IsActive(g, nowMs))
  }

  function StepsOf(a: Activity): real { a.steps as real }
  function DistanceOf(a: Activity): real { a.distanceKm }
  function CaloriesOf(m: Meal): real { m.calories }

  function ComputeStats(workouts: seq<Workout>, meals: seq<Meal>, activities: seq<Activity>,
                        goals: seq<Goal>, nowMs: int): Stats
  {
    Stats(|WeekWorkouts(workouts, nowMs)|, |WeekActivities(activities, nowMs)|, |meals|,
          Seqs.Sum(activities, StepsOf), Seqs.Sum(activities, DistanceOf), Seqs.Sum(meals, CaloriesOf),
          |ActiveGoals(goals, nowMs)|)
  }

  /** The counts never exceed their collections; "this week's" meals are
      all meals; a counted workout, activity or goal passes its rule, and
      every one that passes is counted. */
  lemma StatsCounts(workouts: seq<Workout>, meals: seq<Meal>, activities: seq<Activity>,
                    goals: seq<Goal>, nowMs: int)
    ensures var st := ComputeStats(workouts, meals, activities, goals, nowMs);
            && st.weekWorkouts <= |workouts| && st.weekActivities <= |activities|
            && st.activeGoals <= |goals| && st.weekMeals == |meals|
    ensures forall w :: w in WeekWorkouts(workouts, nowMs) <==> w in workouts && InWeek(w.date, nowMs)
    ensures forall a :: a in WeekActivities(activities, nowMs) <==> a in activities && InWeek(a.startTime, nowMs)
    ensures forall g :: g in ActiveGoals(goals, nowMs) <==> g in goals && GoalsPage.IsActive(g, nowMs)
  {
    var ww := WeekWorkouts(workouts, nowMs);
    forall w ensures w in ww <==> w in workouts && InWeek(w.date, nowMs) {
      if w in ww {
        var i :| 0 <= i < |ww| && ww[i] == w;
      }
      if w in workouts && InWeek(w.date, nowMs) {
        var i :| 0 <= i < |workouts| && workouts[i] == w;
      }
    }
    var wa := WeekActivities(activities, nowMs);
    forall a ensures a in wa <==> a in activities && InWeek(a.startTime, nowMs) {
      if a in wa {
        var i :| 0 <= i < |wa| && wa[i] == a;
      }
      if a in activities && InWeek(a.startTime, nowMs) {
        var i :| 0 <= i < |activities| && activities[i] == a;
      }
    }
    var ag := ActiveGoals(goals, nowMs);
    forall g ensures g in ag <==> g in goals && GoalsPage.IsActive(g, nowMs) {
      if g in ag {
        var i :| 0 <= i < |ag| && ag[i] == g;
      }
      if g in goals && GoalsPage.IsActive(g, nowMs) {
        var i :| 0 <= i < |goals| && goals[i] == g;
      }
    }
  }

  /** Logging one more workout raises this week's count by one exactly
      when its date is inside the window. */
  lemma WeekCountAppend(workouts: seq<Workout>, w: Workout, nowMs: int)
    ensures |WeekWorkouts(workouts + [w], nowMs)|
            == |WeekWorkouts(workouts, nowMs)| + (if InWeek(w.date, nowMs) then 1 else 0)
  {
    Seqs.FilterConcat(workouts, [w], (x: Workout) => InWeek(x.date, nowMs));
    assert [w][1..] == [];
  }

  /** The totals are plain sums over everything stored: 0 for empty
      collections, growing by exactly the new record's value. */
  lemma TotalsAreSums(activities: seq<Activity>, meals: seq<Meal>, a: Activity, m: Meal)
    ensures Seqs.Sum([], StepsOf) == 0.0 && Seqs.Sum([], DistanceOf) == 0.0 && Seqs.Sum([], CaloriesOf) == 0.0
    ensures Seqs.Sum(activities + [a], StepsOf) == Seqs.Sum(activities, StepsOf) + a.steps as real
    ensures Seqs.Sum(activities + [a], DistanceOf) == Seqs.Sum(activities, DistanceOf) + a.distanceKm
    ensures Seqs.Sum(meals + [m], CaloriesOf) == Seqs.Sum(meals, CaloriesOf) + m.calories
  {
    Seqs.SumConcat(activities, [a], StepsOf);
    Seqs.SumConcat(activities, [a], DistanceOf);
    Seqs.SumConcat(meals, [m], CaloriesOf);
  }

  /** Totals are independent of time: moving the clock changes only the
      windowed counts and the active-goal count. */
  lemma TotalsIgnoreTime(workouts: seq<Workout>, meals: seq<Meal>, activities: seq<Activity>,
                         goals: seq<Goal>, t1: int, t2: int)
    ensures var s1, s2 := ComputeStats(workouts, meals, activities, goals, t1),
                          ComputeStats(workouts, meals, activities, goals, t2);
            s1.weekMeals == s2.weekMeals && s1.totalSteps == s2.totalSteps
            && s1.totalDistance == s2.totalDistance && s1.totalCalories == s2.totalCalories
  {
  }

  /** As time passes the number of active goals never grows. */
  lemma ActiveGoalsShrink(goals: seq<Goal>, t1: int, t2: int)
    requires t1 <= t2
    ensures |ActiveGoals(goals, t2)| <= |ActiveGoals(goals, t1)|
  {
    var later := (g: Goal) => GoalsPage.IsActive(g, t2);
    var earlier := (g: Goal) => GoalsPage.IsActive(g, t1);
    forall g: Goal ensures later(g) ==> earlier(g) {
      GoalsPage.ActiveOnlyEnds(g, t1, t2);
    }
    Seqs.FilterWeakerKeepsMore(goals, later, earlier);
  }

  /** `s.slice(-5).reverse()`: the last five (or fewer), newest first. */
  function RecentFive<T>(s: seq<T>): (r: seq<T>)
    ensures |r| == if |s| < 5 then |s| else 5
    ensures forall i :: 0 <= i < |r| ==> r[i] == s[|s| - 1 - i]
  {
    var n := if |s| < 5 then |s| else 5;
    Seqs.Reverse(s[|s| - n..])
  }

  /** The recent list is the head of the full reversed list. */
  lemma RecentIsHeadOfReversed<T>(s: seq<T>)
    ensures RecentFive(s) == Seqs.Reverse(s)[..|RecentFive(s)|]
  {
  }
}
