/** The data export as `JSON.stringify` sees it
    (src/frontend/src/pages/SettingsPage.tsx, the `exportUserData` result
    declared in src/frontend/src/backend.d.ts). The service returns its
    integers (`stepCount`, timestamps, durations, repetitions, steps, goal
    progress and targets) as JavaScript `bigint`, and `JSON.stringify`
    throws a `TypeError` on the first bigint it meets unless a replacer
    turns it into something else first. */
module ExportJson {
  import opened Backend
  import Text

  /** A JavaScript value, as far as serialisation is concerned: a bigint,
      a string, any other value that holds no bigint (numbers, booleans,
      `null`, the photo blob, the enum variants), an array or a plain
      object with its fields in order. */
  datatype JsValue =
    | JsBigInt(n: int)
    | JsString(s: string)
    | JsPlain
    | JsArray(items: seq<JsValue>)
    | JsObject(fields: seq<Field>)

  datatype Field = Field(name: string, value: JsValue)

  /** `JSON.stringify` returns (instead of throwing) exactly when no bigint
      is reachable from the value. */
  predicate Serializable(v: JsValue)
    decreases v
  {
    match v
    case JsBigInt(_) => false
    case JsArray(items) => forall i :: 0 <= i < |items| ==> Serializable(items[i])
    case JsObject(fields) => forall i :: 0 <= i < |fields| ==> Serializable(fields[i].value)
    case _ => true
  }

  /** What `exportUserData()` resolves with. */
  datatype ExportPayload = ExportPayload(meals: seq<Meal>, workouts: seq<Workout>,
                                         activities: seq<Activity>, goals: seq<Goal>,
                                         stepCount: int)

  function SetJson(s: SetEntry): JsValue
  {
    JsObject((if s.rpe.Some? then [Field("rpe", JsPlain)] else [])
             + [Field("weight", JsPlain), Field("reps", JsBigInt(s.reps))])
  }

  function ExerciseJson(e: Exercise): JsValue
  {
    JsObject([Field("name", JsString(e.name)),
              Field("sets", JsArray(seq(|e.sets|, i requires 0 <= i < |e.sets| => SetJson(e.sets[i]))))])
  }

  function WorkoutJson(w: Workout): JsValue
  {
    JsObject([Field("id", JsString(w.id)), Field("duration", JsBigInt(w.duration)),
              Field("date", JsBigInt(w.date)), Field("name", JsString(w.name)),
              Field("exercises", JsArray(seq(|w.exercises|, i requires 0 <= i < |w.exercises| => ExerciseJson(w.exercises[i])))),
              Field("notes", JsString(w.notes))])
  }

  /** A meal holds no bigint: its amounts are numbers. */
  function MealJson(m: Meal): JsValue
  {
    JsObject([Field("id", JsString(m.id)), Field("fat", JsPlain), Field("fiber", JsPlain),
              Field("sodium", JsPlain), Field("carbs", JsPlain), Field("calories", JsPlain),
              Field("sugar", JsPlain), Field("photo", JsPlain), Field("protein", JsPlain)])
  }

  function ActivityJson(a: Activity): JsValue
  {
    JsObject([Field("id", JsString(a.id)), Field("startTime", JsBigInt(a.startTime)),
              Field("activityType", JsPlain), Field("endTime", JsBigInt(a.endTime)),
              Field("calories", JsPlain), Field("isActive", JsPlain), Field("steps", JsBigInt(a.steps)),
              Field("distanceKm", JsPlain), Field("durationMinutes", JsPlain)])
  }

  function GoalJson(g: Goal): JsValue
  {
    JsObject([Field("id", JsString(g.id)), Field("endDate", JsBigInt(g.endDate)),
              Field("goalType", JsPlain), Field("description", JsString(g.description)),
              Field("progress", JsBigInt(g.progress)), Field("target", JsBigInt(g.target)),
              Field("startDate", JsBigInt(g.startDate))])
  }

  /** The payload as one JavaScript object, fields in declaration order. */
  function PayloadJson(p: ExportPayload): JsValue
  {
    JsObject([Field("meals", JsArray(seq(|p.meals|, i requires 0 <= i < |p.meals| => MealJson(p.meals[i])))),
              Field("workouts", JsArray(seq(|p.workouts|, i requires 0 <= i < |p.workouts| => WorkoutJson(p.workouts[i])))),
              Field("activities", JsArray(seq(|p.activities|, i requires 0 <= i < |p.activities| => ActivityJson(p.activities[i])))),
              Field("goals", JsArray(seq(|p.goals|, i requires 0 <= i < |p.goals| => GoalJson(p.goals[i])))),
              Field("stepCount", JsBigInt(p.stepCount))])
  }

  /** Whatever the account holds, the payload cannot be serialised as it
      is: `stepCount` alone is a bigint. */
  lemma PayloadNeverSerializable(p: ExportPayload)
    ensures !Serializable(PayloadJson(p))
  {
    var fields := PayloadJson(p).fields;
    assert fields[4].value == JsBigInt(p.stepCount);
  }

  /** `n.toString()` for a bigint. */
  function BigIntText(n: int): (s: string)
    ensures n >= 0 ==> s == Text.DecimalString(n)
    ensures n < 0 ==> s == "-" + Text.DecimalString(-n)
  {
    if n < 0 then "-" + Text.DecimalString(-n) else Text.DecimalString(n)
  }

  /** The text keeps the number: its sign and digits read back as `n`. */
  lemma BigIntTextValue(n: int)
    ensures n >= 0 ==> Text.AllDigits(BigIntText(n)) && Text.DigitsValue(BigIntText(n)) == n
    ensures n < 0 ==> BigIntText(n)[0] == '-' && Text.AllDigits(BigIntText(n)[1..])
                      && Text.DigitsValue(BigIntText(n)[1..]) == -n
  {
    if n >= 0 {
      Text.DecimalRoundTrip(n);
    } else {
      Text.DecimalRoundTrip(-n);
      assert BigIntText(n)[1..] == Text.DecimalString(-n);
    }
  }

  /** The effect of a replacer `(key, value) => typeof value === 'bigint'
      ? value.toString() : value`: every bigint, at any depth, becomes its
      decimal text; everything else is kept. */
  function Replace(v: JsValue): JsValue
    decreases v
  {
    match v
    case JsBigInt(n) => JsString(BigIntText(n))
    case JsArray(items) => JsArray(seq(|items|, i requires 0 <= i < |items| => Replace(items[i])))
    case JsObject(fields) =>
      JsObject(seq(|fields|, i requires 0 <= i < |fields| => Field(fields[i].name, Replace(fields[i].value))))
    case _ => v
  }

  /** With the replacer every value serialises. */
  lemma {:induction false} ReplacedSerializable(v: JsValue)
    ensures Serializable(Replace(v))
    decreases v
  {
    match v
    case JsArray(items) =>
      forall i | 0 <= i < |items|
        ensures Serializable(Replace(items[i]))
      {
        ReplacedSerializable(items[i]);
      }
    case JsObject(fields) =>
      forall i | 0 <= i < |fields|
        ensures Serializable(Replace(fields[i].value))
      {
        ReplacedSerializable(fields[i].value);
      }
    case _ =>
  }

  /** The replacer changes nothing in a value that already serialises. */
  lemma {:induction false} ReplaceKeepsSerializable(v: JsValue)
    requires Serializable(v)
    ensures Replace(v) == v
    decreases v
  {
    match v
    case JsArray(items) =>
      forall i | 0 <= i < |items|
        ensures Replace(items[i]) == items[i]
      {
        ReplaceKeepsSerializable(items[i]);
      }
      assert Replace(v).items == items;
    case JsObject(fields) =>
      forall i | 0 <= i < |fields|
        ensures Replace(fields[i].value) == fields[i].value
      {
        ReplaceKeepsSerializable(fields[i].value);
      }
      assert Replace(v).fields == fields;
    case _ =>
  }

  /** The exported file keeps the step count, as its decimal text, in the
      last field. */
  lemma ReplacedStepCount(p: ExportPayload)
    ensures Replace(PayloadJson(p)).JsObject?
    ensures |Replace(PayloadJson(p)).fields| == 5
    ensures Replace(PayloadJson(p)).fields[4] == Field("stepCount", JsString(BigIntText(p.stepCount)))
  {
  }
}
