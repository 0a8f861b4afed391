/** The records and enumerations of the remote service's interface
    (src/frontend/src/backend.d.ts). Every collection record is a value;
    the client never updates one in place. */
module Backend {

  datatype Option<T> = None | Some(value: T)

  datatype ActivityType = Run | Walk | Cycle

  datatype GoalType = Duration | Calories | Distance | WorkoutsPerWeek | Steps

  /** `Variant_metric_imperial`. */
  datatype UnitSystem = Metric | Imperial

  /** The string values of the enumerations, as declared. */
  function ActivityTypeName(t: ActivityType): string {
    match t
    case Run => "run"
    case Walk => "walk"
    case Cycle => "cycle"
  }

  function GoalTypeName(g: GoalType): string {
    match g
    case Duration => "duration"
    case Calories => "calories"
    case Distance => "distance"
    case WorkoutsPerWeek => "workoutsPerWeek"
    case Steps => "steps"
  }

  function UnitSystemName(u: UnitSystem): string {
    match u
    case Metric => "metric"
    case Imperial => "imperial"
  }

  /** A goal type or unit preference as a value at run time. The interface
      declares both as string enumerations, but the pages build them as
      single-key objects (`{ [units]: null }`) and test them by key
      (`'metric' in units`, `type.steps !== undefined`); either shape can
      reach the pages, so both are kept. */
  datatype Wire = ObjectVariant(keys: set<string>) | StringValue(s: string)

  /** JavaScript truthiness of such a value: only the empty string is falsy. */
  predicate Truthy(w: Wire) {
    w != StringValue("")
  }

  /** The opaque photo reference (`ExternalBlob`); its bytes are not modelled. */
  datatype PhotoRef = PhotoRef(fileName: string)

  /** `Set_`: weight in kilograms, an optional perceived exertion. */
  datatype SetEntry = SetEntry(rpe: Option<real>, weight: real, reps: int)

  datatype Exercise = Exercise(name: string, sets: seq<SetEntry>)

  /** Timestamps are nanoseconds since the epoch. */
  datatype Workout = Workout(id: string, duration: int, date: int, name: string,
                             exercises: seq<Exercise>, notes: string)

  /** `T__1`. */
  datatype Meal = Meal(id: string, fat: real, fiber: real, sodium: real, carbs: real,
                       calories: real, sugar: real, photo: PhotoRef, protein: real)

  datatype Activity = Activity(id: string, startTime: int, activityType: ActivityType,
                               endTime: int, calories: real, isActive: bool, steps: int,
                               distanceKm: real, durationMinutes: real)

  /** `T`. */
  datatype Goal = Goal(id: string, endDate: int, goalType: Wire, description: string,
                       progress: int, target: int, startDate: int)

  datatype UserProfile = UserProfile(displayName: string, units: Wire)

  /** Milliseconds to the nanosecond timestamps the service stores. */
  const NanosPerMilli: int := 1_000_000
}
