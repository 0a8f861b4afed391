# FitTrack front end: a verified model of the client-side logic

This project models the deterministic client logic of the FitTrack web
front end, a React application over a remote fitness service. The model
covers these parts:

- **Nutrition estimator.** The simulated photo estimate derives seven macro
  values from a file name: a character-code hash, a seed, a meal size,
  calories, macro ratios, clamped fibre, sugar and sodium, and
  round-half-up.
- **Unit conversion.** Metric/imperial conversion of weights and
  distances, and the unit suffix each display uses.
- **Query cache.** The shared cache of remote collections: the data each
  query last returned and whether it is fresh or stale. Each mutation
  hook marks a fixed set of collections stale when it succeeds. Delete-all
  and sign-out clear the cache. A failed call changes nothing, and so does
  a call made without an actor (the service handle).
- **Pages.** The state and derived values of each page:
  - the activity tracker's session state machine, its simulated metrics
    and its `hh:mm:ss` display;
  - goal progress, the active rule and the goal-type label;
  - the dashboard's weekly counts, totals and recent lists;
  - the workout, meal, goal and profile forms, with their checks and
    the records they send;
  - the settings page's initial values and its export file name.
- **Application shell.** The first-run gate (signed-out screen, loading
  screen, or the layout with the profile-setup dialog) and the route table.

Module layout follows the source: one module per core file
(`NutritionEstimator`, `Units`, `QueryCache`, `ActivityPage`, `GoalsPage`,
`DashboardPage`, `WorkoutsPage`, `NutritionPage`, `SettingsPage`,
`ProfileSetup`, `App`). A few shared modules support them:

- `Backend` holds the records and enumerations of the service interface.
- `Profiles` holds the unit-preference reading that several pages share.
- `Text` holds the JavaScript string operations the pages rely on: `trim`,
  integer `toString`, `padStart(2, '0')` and `split(...)[0]`.
- `ExportJson` holds the export payload as `JSON.stringify` sees it, and
  the bigint-to-text replacer.
- `Seqs` holds the array operations: `filter`, `slice().reverse()`,
  removal by index and summing `reduce`.

State that the source updates in place is a `class`:

- the query client;
- the activity tracker;
- the goal, workout, meal, settings and profile-setup forms.

Everything else is functions and lemmas. Each save handler is one
method. It covers the page's own check, the mutation (its outcome is a
parameter: whether there is an actor and whether the service accepts the
call) and the form update that follows. The activity page awaits its
mutations while the one-second timer keeps running. So its start and end
handlers are each split in two: the part before the `await` and the
continuation after it.

Numbers are exact: `real` for JavaScript floats and `int` for bigints.
`Math.round` is `floor(x + 0.5)`. The current time and the ISO date string
are parameters. `parseFloat` and `BigInt` are given as their results
(`None` for NaN or for a throw).

Some behaviours of the code are easy to misread. The model keeps them as
the code has them:

- A 125-second run gives 125/60 minutes. 150 × 125/60 is exactly 312.5,
  and `Math.round` gives **313** steps (`ActivityPage.RunOf125Seconds`).
- When starting an activity fails, the code stops tracking but **keeps**
  the session id (`ActivityPage.ActivityTracker.FinishStart`).
- A successful delete-all calls `clear()`, which **removes** every cached
  entry rather than leaving empty collections behind. Until the next
  fetch every page reads its `= []` default
  (`QueryCache.DeleteAllEmptiesCache`, `QueryCache.InvalidationKeepsData`).
- `invalidateQueries` marks stale only the entries that exist, and keeps
  their data until the refetch (`QueryCache.InvalidationEffect`).
- The weekly window is **strictly after** now − 7 days, and it has **no
  upper bound**: a future-dated workout counts (`DashboardPage.InWeekExact`).
- Unit preferences and goal types are tested as object variants
  (`'metric' in units`, `type.steps !== undefined`), while the service
  interface declares them as string enumerations. The `Backend.Wire` type
  keeps both run-time shapes, and the checks are modelled as written:
  - a string-form preference always reads as imperial
    (`Profiles.EnumFormReadsImperial`);
  - the goal type the goals page itself sends is a string, which its
    own label function shows as "Unknown" (`GoalsPage.NewGoalFacts`).
- With no profile, the dashboard, workouts and activity pages default to
  metric (`userProfile?.units || { metric: null }`), while the settings
  form starts on imperial (`Profiles.DefaultsDisagree`).
- The export never produces a file: see "Findings".

## Model

| member | source | states |
|---|---|---|
| NutritionEstimator.Round | src/frontend/src/lib/nutritionEstimator.ts:39-45 | `Math.round` gives the integer within half of x, ties going up |
| NutritionEstimator.RoundWithin | src/frontend/src/lib/nutritionEstimator.ts:39-45 | rounding a value between two integers stays between them |
| NutritionEstimator.RoundWhole | src/frontend/src/lib/nutritionEstimator.ts:39 | rounding an integral value returns it |
| NutritionEstimator.RoundNonNegative | src/frontend/src/lib/nutritionEstimator.ts:40-42 | rounding keeps a non-negative value non-negative |
| NutritionEstimator.SeedFacts | src/frontend/src/lib/nutritionEstimator.ts:16-22 | the seed is below 100, so `seed % 200` is the seed; the variance is in [-100, -1]; the meal size is 1, 2 or 3 |
| NutritionEstimator.CaloriesRange | src/frontend/src/lib/nutritionEstimator.ts:19-23 | calories are a whole number in [200, 699], with a band for each meal size |
| NutritionEstimator.RatiosPartition | src/frontend/src/lib/nutritionEstimator.ts:26-28 | the three ratios sum to 1; protein is in [0.25, 0.34], carbs in [0.45, 0.59] and fat in [0.07, 0.30], so fat is positive |
| NutritionEstimator.SplitByRatios | src/frontend/src/lib/nutritionEstimator.ts:30-32 | protein = calories·pr/4, carbs = calories·cr/4, fat = calories·fr/9, and 4p + 4c + 9f gives the calories back |
| NutritionEstimator.EnergyBalance | src/frontend/src/lib/nutritionEstimator.ts:26-32 | for every seed, the unrounded macros account exactly for the calories |
| NutritionEstimator.ClampWithin | src/frontend/src/lib/nutritionEstimator.ts:34-36 | `max(lo, min(hi, x))` lies in [lo, hi] |
| NutritionEstimator.MacrosBounds | src/frontend/src/lib/nutritionEstimator.ts:30-36 | for calories in [200, 699] and positive ratios, the macros are positive; fibre is in [2, 15], sugar in [5, 30] and sodium in [200, 1500] |
| NutritionEstimator.ExactBounds | src/frontend/src/lib/nutritionEstimator.ts:21-36 | the bounds hold for every seed before rounding |
| NutritionEstimator.RoundAllBounds | src/frontend/src/lib/nutritionEstimator.ts:38-46 | rounding keeps calories exact and the bounds on every field |
| NutritionEstimator.EstimateBounds | src/frontend/src/lib/nutritionEstimator.ts:11-47 | for every file name: calories in [200, 699], non-negative macros, fibre in [2, 15], sugar in [5, 30], sodium in [200, 1500], and each macro within half of its unrounded value |
| NutritionEstimator.HashConcat | src/frontend/src/lib/nutritionEstimator.ts:15 | the hash of a concatenation is the sum of the hashes |
| NutritionEstimator.HashPermutation | src/frontend/src/lib/nutritionEstimator.ts:15 | two names with the same characters in any order have the same hash |
| NutritionEstimator.EstimatePermutation | src/frontend/src/lib/nutritionEstimator.ts:11-47 | any permutation of a file name gives the same estimate |
| Units.ConvertCases | src/frontend/src/lib/units.ts:19-29 | within one system the value is unchanged; metric to imperial multiplies by 2.20462 (weight) or 0.621371 (distance); the reverse divides by the same factor |
| Units.ConvertRoundTrip | src/frontend/src/lib/units.ts:19-29 | converting there and back returns the value exactly |
| Units.ConvertMonotone | src/frontend/src/lib/units.ts:21-28 | conversion keeps non-negative values non-negative and keeps strict order |
| Units.FormatMatchesConvert | src/frontend/src/lib/units.ts:1-17 | the displayed number equals the conversion from metric; the suffix is km/mi or kg/lbs; the precision is 2 or 1 decimals |
| QueryCache.FetchReads | src/frontend/src/hooks/useQueries.ts:5-16 | after a resolved fetch the page reads exactly the service's snapshot, marked fresh; other keys read as before; a failed or disabled fetch changes no read; entries keep their kind |
| QueryCache.NoActorFetchesNothing | src/frontend/src/hooks/useQueries.ts:14 | with no actor, any sequence of queries leaves the cache as it was |
| QueryCache.SignedOutSeesNothing | src/frontend/src/pages/DashboardPage.tsx:12-15 | from an empty cache with no actor, every page reads its empty default |
| QueryCache.InvalidationKeepsData | src/frontend/src/hooks/useQueries.ts:208-221 | invalidation keeps every page's data until the refetch; delete-all makes every page read its empty default |
| QueryCache.QueryClient.constructor | src/frontend/src/hooks/useQueries.ts:5-16 | the cache starts empty |
| QueryCache.QueryClient.InvalidateQueries | src/frontend/src/hooks/useQueries.ts:27-30 | invalidating a key marks its existing entry stale and changes nothing else |
| QueryCache.QueryClient.Clear | src/frontend/src/components/auth/LoginButton.tsx:14-15 | `clear()` (on sign-out and delete-all) leaves no entry |
| QueryCache.QueryClient.Fetch | src/frontend/src/hooks/useQueries.ts:5-16 | a collection query runs only with an actor that is not being fetched; when its call resolves the page reads exactly the service's data; a rejected call or a disabled query leaves the cache unchanged |
| QueryCache.QueryClient.OnSuccess | src/frontend/src/hooks/useQueries.ts:18-221 | each hook's `onSuccess` leaves the cache as the invalidation table says |
| QueryCache.QueryClient.Mutate | src/frontend/src/hooks/useQueries.ts:22-31 | a mutation throws without an actor, and `onSuccess` runs only when the call resolves; the new cache is the table's effect of the result |
| QueryCache.InvalidationEffect | src/frontend/src/hooks/useQueries.ts:27-30 | success keeps the set of cached keys, marks exactly the hook's keys stale and keeps every other entry |
| QueryCache.WorkoutMutationsInvalidate | src/frontend/src/hooks/useQueries.ts:27-46 | saving or deleting a workout invalidates exactly workouts and goals |
| QueryCache.GoalMutationsInvalidate | src/frontend/src/hooks/useQueries.ts:72-89 | saving or deleting a goal invalidates exactly goals |
| QueryCache.MealMutationsInvalidate | src/frontend/src/hooks/useQueries.ts:115-134 | saving or deleting a meal marks meals and goals stale and leaves workouts and activities as they were |
| QueryCache.ActivityMutationsInvalidate | src/frontend/src/hooks/useQueries.ts:160-178 | starting invalidates only activities; ending invalidates activities and goals |
| QueryCache.ProfileAndExportInvalidate | src/frontend/src/hooks/useQueries.ts:191-206 | a profile update invalidates only the profile; an export leaves the cache unchanged |
| QueryCache.GoalsFollowProgressSources | src/frontend/src/hooks/useQueries.ts:18-180 | goals are invalidated by exactly the workout, goal, meal and end-activity mutations |
| QueryCache.DeleteAllEmptiesCache | src/frontend/src/hooks/useQueries.ts:217-219 | a successful delete-all leaves no cached entry |
| QueryCache.FailureLeavesCache | src/frontend/src/hooks/useQueries.ts:24 | with no actor, or when the service rejects, the cache is unchanged |
| QueryCache.MutationIdempotent | src/frontend/src/hooks/useQueries.ts:27-30 | repeating a successful mutation changes the cache no further |
| Profiles.SubmissionRejectsBlank | src/frontend/src/pages/SettingsPage.tsx:26-35 | a profile is refused exactly when the name is blank; an accepted one has the trimmed, non-blank name |
| Profiles.SubmissionReadsBack | src/frontend/src/pages/SettingsPage.tsx:20-35 | a submitted profile reads back with the chosen units on every page and in the settings form |
| Profiles.DefaultsDisagree | src/frontend/src/pages/SettingsPage.tsx:21-23 | with no profile the pages show metric while the settings form starts on imperial |
| Profiles.PresentProfileAgrees | src/frontend/src/pages/DashboardPage.tsx:42-43 | with a profile present, the pages and the settings form agree on metric |
| Profiles.EnumFormReadsImperial | src/frontend/src/backend.d.ts:86-89 | a preference in the declared string form is never read as metric |
| ActivityPage.MetricsProportional | src/frontend/src/pages/ActivityPage.tsx:57-67 | the minutes are elapsed/60; steps are the nearest integer to rate × minutes, and always 0 when cycling; distance and calories are rate × minutes; nothing is negative |
| ActivityPage.MetricsMonotone | src/frontend/src/pages/ActivityPage.tsx:57-67 | a longer session never reports fewer steps, less distance or fewer calories |
| ActivityPage.RunOf125Seconds | src/frontend/src/pages/ActivityPage.tsx:57-67 | 125 s of running gives 313 steps, 0.3125 km and 1250/60 kcal |
| ActivityPage.Clock | src/frontend/src/pages/ActivityPage.tsx:86-89 | hours·3600 + minutes·60 + seconds is the input, with minutes and seconds below 60 |
| ActivityPage.FormatTimeRoundTrip | src/frontend/src/pages/ActivityPage.tsx:86-91 | the display reads back as the seconds shown, with each field at least two digits |
| ActivityPage.HistoryContents | src/frontend/src/pages/ActivityPage.tsx:172 | the history holds exactly the finished activities, in reverse stored order |
| ActivityPage.ActivityTracker.constructor | src/frontend/src/pages/ActivityPage.tsx:18-21 | a walk, not tracking, no id, zero seconds |
| ActivityPage.ActivityTracker.SelectType | src/frontend/src/pages/ActivityPage.tsx:18 | choosing a type changes only the type |
| ActivityPage.ActivityTracker.BeginStart | src/frontend/src/pages/ActivityPage.tsx:36-46 | before the await: a new id from the clock, tracking on and elapsed 0; the request carries the id and the type |
| ActivityPage.ActivityTracker.FinishStart | src/frontend/src/pages/ActivityPage.tsx:42-51 | after the start call: failure stops tracking and keeps the id and the elapsed time |
| ActivityPage.ActivityTracker.Tick | src/frontend/src/pages/ActivityPage.tsx:26-34 | a tick adds exactly 1 while tracking and does nothing otherwise |
| ActivityPage.ActivityTracker.BeginEnd | src/frontend/src/pages/ActivityPage.tsx:54-76 | with no id nothing is sent; otherwise the request is the session's metrics |
| ActivityPage.ActivityTracker.FinishEnd | src/frontend/src/pages/ActivityPage.tsx:69-84 | success resets tracking, id and elapsed time; failure leaves all three unchanged |
| ActivityPage.SessionScenario | src/frontend/src/pages/ActivityPage.tsx:26-84 | start, n ticks and end send the metrics of n seconds |
| GoalsPage.ProgressBounds | src/frontend/src/pages/GoalsPage.tsx:73-77 | 0 for a non-positive target or no progress; in [0, 100] for non-negative progress; 100 exactly when progress reaches a positive target; the exact proportion below it |
| GoalsPage.ProgressMonotone | src/frontend/src/pages/GoalsPage.tsx:73-77 | more progress never lowers the percentage |
| GoalsPage.ActiveOnlyEnds | src/frontend/src/pages/GoalsPage.tsx:169 | a goal, once inactive, stays inactive as time passes; progress plays no part |
| GoalsPage.LabelOfVariant | src/frontend/src/pages/GoalsPage.tsx:64-71 | a single-key variant gets its own label, labels are distinct and none is "Unknown"; the string form shows "Unknown" |
| GoalsPage.LabelPrecedence | src/frontend/src/pages/GoalsPage.tsx:64-65 | the keys are tested in a fixed order, workoutsPerWeek first |
| GoalsPage.NewGoalFacts | src/frontend/src/pages/GoalsPage.tsx:32-40 | a new goal has progress 0 towards the entered target (so 0 percent), a trimmed non-blank description, startDate now·10⁶, an id that reads back as now, and it is active iff its end is after now |
| GoalsPage.GoalForm.constructor | src/frontend/src/pages/GoalsPage.tsx:21-24 | empty fields and workouts-per-week |
| GoalsPage.GoalForm.SaveGoal | src/frontend/src/pages/GoalsPage.tsx:26-53 | refused with no call on a blank description, empty target or empty date; a bad number throws with no call; success clears the fields and closes the dialog; failure changes nothing |
| DashboardPage.InWeekExact | src/frontend/src/pages/DashboardPage.tsx:19-23 | the window is strictly after now − 604 800 000 ms: the boundary is out and every later timestamp is in |
| DashboardPage.StatsCounts | src/frontend/src/pages/DashboardPage.tsx:18-40 | each count is at most its collection's size; weekly meals are all meals; each counted record passes its rule, and every record that passes is counted |
| DashboardPage.WeekCountAppend | src/frontend/src/pages/DashboardPage.tsx:22 | one more workout raises the weekly count iff it is in the window |
| DashboardPage.TotalsAreSums | src/frontend/src/pages/DashboardPage.tsx:26-28 | the totals are 0 when empty and grow by exactly each added record's value |
| DashboardPage.TotalsIgnoreTime | src/frontend/src/pages/DashboardPage.tsx:24-28 | the totals and the meal count do not depend on the time |
| DashboardPage.ActiveGoalsShrink | src/frontend/src/pages/DashboardPage.tsx:29 | the active-goal count, which uses the goals page's rule, never grows as time passes |
| DashboardPage.RecentFive | src/frontend/src/pages/DashboardPage.tsx:113-144 | at most five items: the last ones, newest first |
| DashboardPage.RecentIsHeadOfReversed | src/frontend/src/pages/DashboardPage.tsx:144 | the recent list is the head of the full reversed list |
| Seqs.Reverse | src/frontend/src/pages/WorkoutsPage.tsx:241 | listed workouts (and meals) appear in reverse stored order |
| Seqs.RemoveAt | src/frontend/src/pages/WorkoutsPage.tsx:42-44 | removing index i drops exactly that entry and keeps the order of the rest |
| WorkoutsPage.ValidExercisesMeaning | src/frontend/src/pages/WorkoutsPage.tsx:52 | an exercise is kept iff its name is not blank and it has a set; the original order is kept |
| WorkoutsPage.AddedExerciseNotSaved | src/frontend/src/pages/WorkoutsPage.tsx:32-34 | a freshly added exercise is blank, so it never changes what is saved |
| WorkoutsPage.BuiltWorkoutFacts | src/frontend/src/pages/WorkoutsPage.tsx:58-65 | a saved workout has a trimmed non-blank name, trimmed notes, date now·10⁶, an id that reads back as now, and at least one exercise, all valid |
| WorkoutsPage.WorkoutForm.constructor | src/frontend/src/pages/WorkoutsPage.tsx:22-27 | empty name and notes, duration "60", one blank exercise with one zero set |
| WorkoutsPage.WorkoutForm.AddExercise | src/frontend/src/pages/WorkoutsPage.tsx:32-34 | appends one blank exercise and keeps the rest |
| WorkoutsPage.WorkoutForm.AddSet | src/frontend/src/pages/WorkoutsPage.tsx:36-40 | appends one zero set to exercise i only; an index with no exercise changes nothing |
| WorkoutsPage.WorkoutForm.RemoveExercise | src/frontend/src/pages/WorkoutsPage.tsx:42-44 | removes exactly the entry at i, as a multiset and in order |
| WorkoutsPage.WorkoutForm.SetExerciseName | src/frontend/src/pages/WorkoutsPage.tsx:146-150 | the edit changes only that exercise's name |
| WorkoutsPage.WorkoutForm.SetWeight | src/frontend/src/pages/WorkoutsPage.tsx:171-175 | the weight becomes the parsed number, or 0 for NaN, in that set only |
| WorkoutsPage.WorkoutForm.SetReps | src/frontend/src/pages/WorkoutsPage.tsx:183-187 | reps become 0 for an empty field or the parsed integer; a throwing parse changes nothing |
| WorkoutsPage.WorkoutForm.Reset | src/frontend/src/pages/WorkoutsPage.tsx:71-74 | after a successful save the form is back to its initial state: empty name and notes, duration "60", one blank exercise |
| WorkoutsPage.WorkoutForm.SaveWorkout | src/frontend/src/pages/WorkoutsPage.tsx:46-79 | refused on a blank name or with no valid exercise; success resets to the initial form and closes the dialog; failure changes nothing |
| NutritionPage.CaloriesCheck | src/frontend/src/pages/NutritionPage.tsx:64-67 | empty or non-positive calories are refused and positive ones accepted; unparseable text passes and is sent as 0 |
| NutritionPage.EstimateShownReadsBack | src/frontend/src/pages/NutritionPage.tsx:43-50 | each estimated value is shown as a decimal numeral that reads back as that value |
| NutritionPage.MealForm.constructor | src/frontend/src/pages/NutritionPage.tsx:19-28 | no photo, all seven fields empty |
| NutritionPage.MealForm.ResetForm | src/frontend/src/pages/NutritionPage.tsx:97-107 | clears the photo and all seven fields |
| NutritionPage.MealForm.ShowEstimate | src/frontend/src/pages/NutritionPage.tsx:44-50 | each of the seven fields holds the decimal text of the matching estimated value; the photo, the dialog and the estimating flag are untouched |
| NutritionPage.MealForm.PhotoChange | src/frontend/src/pages/NutritionPage.tsx:30-56 | no file changes nothing; otherwise the photo is kept and every field shows the matching estimated value |
| NutritionPage.MealForm.SaveMeal | src/frontend/src/pages/NutritionPage.tsx:58-95 | refused without a photo or on failing calories; sends [calories, carbs, protein, fat, fiber, sugar, sodium] with NaN as 0; success empties the form and closes the dialog; failure changes nothing |
| NutritionPage.SaveEstimateScenario | src/frontend/src/pages/NutritionPage.tsx:77-85 | saving an unchanged estimate sends it in the service's order |
| SettingsPage.ExportFilenameDate | src/frontend/src/pages/SettingsPage.tsx:50 | the export name is "fittrack-export-" + the part before "T" + ".json" |
| SettingsPage.SettingsForm.constructor | src/frontend/src/pages/SettingsPage.tsx:20-23 | the name is the profile's or ""; the units are metric only for an object preference with a metric key |
| SettingsPage.SettingsForm.UpdateProfile | src/frontend/src/pages/SettingsPage.tsx:25-41 | refused with no call on a blank name; otherwise sends the trimmed name and `{ [units]: null }` |
| SettingsPage.ExportFilename | src/frontend/src/pages/SettingsPage.tsx:50 | the download name from the current ISO timestamp; its properties are in `ExportFilenameDate` |
| SettingsPage.SettingsForm.ExportDataAsWritten | src/frontend/src/pages/SettingsPage.tsx:43-60 | as written, no file is ever offered: serialising the payload throws; the cache is unchanged |
| SettingsPage.SettingsForm.ExportData | src/frontend/src/pages/SettingsPage.tsx:43-60 | corrected: a file is offered iff the export resolves; it has the dated name and the bigint-to-text payload, which serialises; the cache is unchanged |
| ExportJson.PayloadNeverSerializable | src/frontend/src/backend.d.ts:98-104 | whatever the account holds, `JSON.stringify` throws on the export payload, because `stepCount` is a bigint |
| ExportJson.BigIntTextValue | src/frontend/src/backend.d.ts:103 | a bigint's decimal text reads back as the number, sign included |
| ExportJson.ReplacedSerializable | src/frontend/src/pages/SettingsPage.tsx:46 | after a bigint-to-text replacer, every value serialises |
| ExportJson.ReplaceKeepsSerializable | src/frontend/src/pages/SettingsPage.tsx:46 | the replacer changes nothing in a value that already serialises |
| ExportJson.ReplacedStepCount | src/frontend/src/backend.d.ts:98-104 | the exported file keeps the step count as its decimal text |
| SettingsPage.SettingsForm.DeleteAllData | src/frontend/src/pages/SettingsPage.tsx:62-70 | success leaves no cached entry; failure changes nothing |
| SettingsPage.ResaveScenario | src/frontend/src/pages/SettingsPage.tsx:20-35 | re-saving a stored profile unchanged sends the same name and units |
| ProfileSetup.SetupForm.constructor | src/frontend/src/components/auth/ProfileSetupDialog.tsx:15-16 | the defaults are an empty name and metric |
| ProfileSetup.SetupForm.Submit | src/frontend/src/components/auth/ProfileSetupDialog.tsx:19-36 | refused with no call exactly on a blank name; otherwise sends the trimmed name and the chosen units variant |
| ProfileSetup.UntouchedSubmitScenario | src/frontend/src/components/auth/ProfileSetupDialog.tsx:15-24 | submitting the untouched dialog is refused and the cache is unchanged |
| App.ScreenChoice | src/frontend/src/App.tsx:52-74 | signed out whatever the flags; loading exactly while the actor or the profile is pending; the layout otherwise |
| App.SetupDialogOpen | src/frontend/src/App.tsx:50-69 | the dialog is open iff signed in, the profile query is settled with no profile, and the actor is ready; a stored profile never opens it |
| App.PageForFirst | src/frontend/src/App.tsx:117-124 | route lookup finds the first route with the path |
| App.RoutesDistinct | src/frontend/src/App.tsx:81-124 | six routes with distinct paths and pages; each page's path leads to it |
| Text.Trim | src/frontend/src/pages/WorkoutsPage.tsx:47 | `trim`; `TrimEmptyIffBlank`, `TrimShape` and `TrimIdempotent` state its properties |
| NutritionEstimator.EstimateNutrition | src/frontend/src/lib/nutritionEstimator.ts:11-47 | the estimate; `EstimateBounds` and `EstimatePermutation` state its properties |
| GoalsPage.CalculateProgress | src/frontend/src/pages/GoalsPage.tsx:73-77 | the progress percentage; `ProgressBounds` and `ProgressMonotone` state its properties |
| GoalsPage.GoalTypeLabel | src/frontend/src/pages/GoalsPage.tsx:64-71 | the goal-type label; `LabelOfVariant` and `LabelPrecedence` state its properties |
| GoalsPage.BuildGoal | src/frontend/src/pages/GoalsPage.tsx:32-40 | the goal sent on save; `NewGoalFacts` states its properties |
| ActivityPage.SessionMetrics | src/frontend/src/pages/ActivityPage.tsx:57-67 | the simulated end-of-session metrics; `MetricsProportional`, `MetricsMonotone` and `RunOf125Seconds` state their properties |
| ActivityPage.FormatTime | src/frontend/src/pages/ActivityPage.tsx:86-91 | the `hh:mm:ss` display; `FormatTimeRoundTrip` states its properties |
| ActivityPage.History | src/frontend/src/pages/ActivityPage.tsx:172 | the finished sessions listed; `HistoryContents` states its contents |
| DashboardPage.InWeek | src/frontend/src/pages/DashboardPage.tsx:19-23 | the weekly window; `InWeekExact` and `WeekCountAppend` state its properties |
| DashboardPage.ComputeStats | src/frontend/src/pages/DashboardPage.tsx:18-40 | the dashboard figures; `StatsCounts`, `TotalsAreSums`, `TotalsIgnoreTime` and `ActiveGoalsShrink` state their properties |
| WorkoutsPage.BuildWorkout | src/frontend/src/pages/WorkoutsPage.tsx:58-65 | the workout sent on save; `BuiltWorkoutFacts` states its properties |
| Profiles.PageIsMetric | src/frontend/src/pages/DashboardPage.tsx:42-43 | the pages' metric test; `DefaultsDisagree`, `PresentProfileAgrees` and `EnumFormReadsImperial` state its properties |
| Profiles.ProfileSubmission | src/frontend/src/pages/SettingsPage.tsx:26-35 | the profile a form sends; `SubmissionRejectsBlank` and `SubmissionReadsBack` state its properties |
| App.PageFor | src/frontend/src/App.tsx:117-124 | route lookup; `PageForFirst` and `RoutesDistinct` state its properties |
| App.LayoutWrapper | src/frontend/src/App.tsx:52-74 | the screen shown; `ScreenChoice` states its properties |

## Left out

- JSX rendering, CSS, icons, toasts and `console.error`: presentation only.
- Remote calls are reduced to their outcome: whether there is an actor and whether the service accepts the call. The data the service returns is a parameter (the query snapshots and the export payload).
- Reading the photo's bytes (`arrayBuffer`, `ExternalBlob.fromBytes`) and the `FileReader` preview URL are browser I/O. The model keeps the photo by its file name and assumes reading the bytes succeeds.
- Timers: `setInterval` is the explicit `Tick` method. The 1500 ms estimate delay is collapsed into `PhotoChange`, so edits made during the delay are not modelled. The 300 ms login retry is left out with the rest of `LoginButton.tsx`; only its `queryClient.clear()` on sign-out is modelled.
- `Date.now`, `toISOString`, `toLocaleDateString` and `toLocaleString` are parameters or left out.
- `toFixed` digit rendering and IEEE-754 rounding: magnitudes are exact reals. `Number(...)` of nanosecond bigints beyond 2^53 is also exact here.
- `parseFloat` and `BigInt` parsing are abstract: each is given as its result.
- The JSON download itself (`Blob`, object URL, anchor click) is browser I/O. `JSON.stringify` is reduced to whether it throws, and the payload's numbers, booleans, enum values and photo blob are all `JsPlain`: only its bigints and strings are kept.
- WorkoutsPage.BuildWorkout, GoalsPage.BuildGoal: the id and the date come from one clock reading, while the source calls `Date.now()` twice (WorkoutsPage.tsx:59 and 62, GoalsPage.tsx:33 and 38), so in the source they can differ by the milliseconds between the two calls.
- The caller-profile query (`useGetCallerUserProfile`) is not part of this model; `QueryCache.QueryClient.Fetch` runs only the four collection queries.
- react-query internals: refetch scheduling, in-flight de-duplication, retries and loading flags. The cache model records which entries exist, the data each holds and whether each is fresh or stale.
- Delete handlers on the workouts, goals and meals pages only call their mutation and toast. They are covered by `QueryCache.QueryClient.Mutate`.
- Form field setters (text inputs, selects and radio groups) are plain field assignments and have no methods, except the exercise-list edits.
- Pending-state button disabling is left out. So is hiding the activity type selector while tracking. The model lets the type change during a session, whereas the page does not.
- `PrimaryNav.tsx`, `AppLayout.tsx` and the login/identity hooks are navigation and authentication plumbing.
- The settings form takes its initial values once, when the page mounts, as the source does. A profile that arrives later does not update the form.
- Object sharing between the exercise list and the workout sent: the handlers copy the list shallowly, and the model uses values.
- `trim`: the model uses the ECMAScript white-space and line-terminator characters. It compares UTF-16 code units one by one, as `trim` does.

## Findings

| source | as written | input that shows it | evidently intended | confidence | as-written member | corrected member |
|---|---|---|---|---|---|---|
| src/frontend/src/pages/SettingsPage.tsx:46 | `JSON.stringify(data, null, 2)` on the `exportUserData()` result, whose `stepCount` (and every timestamp, duration, rep count, step count and goal figure) is a `bigint`; `JSON.stringify` throws a `TypeError` on a bigint, so the catch shows "Failed to export data" | any export that resolves, e.g. an empty account with `stepCount` 0n | a dated JSON file is downloaded, the bigints written as text | high; not executed | SettingsPage.SettingsForm.ExportDataAsWritten (with ExportJson.PayloadNeverSerializable) | SettingsPage.SettingsForm.ExportData (with ExportJson.ReplacedSerializable) |
