/** The client-side cache of remote collections and the hooks that fill it
    and keep it consistent (src/frontend/src/hooks/useQueries.ts). Each
    query key may hold an entry: the data the last successful fetch
    returned, fresh or marked stale. A successful mutation marks a fixed set
    of keys stale (or, for delete-all, empties the cache); a mutation with
    no actor or a rejected call leaves it untouched. */
module QueryCache {
  import Backend

  datatype QueryKey = WorkoutsKey | GoalsKey | MealsKey | ActivitiesKey | CurrentUserProfileKey

  datatype Freshness = Fresh | Stale

  /** What a query caches: the list a collection query returned, or the
      caller's profile (`undefined` when there is none). */
  datatype Snapshot =
    | WorkoutList(workouts: seq<Backend.Workout>)
    | GoalList(goals: seq<Backend.Goal>)
    | MealList(meals: seq<Backend.Meal>)
    | ActivityList(activities: seq<Backend.Activity>)
    | ProfileValue(profile: Backend.Option<Backend.UserProfile>)

  function KeyOf(s: Snapshot): QueryKey
  {
    match s
    case WorkoutList(_) => WorkoutsKey
    case GoalList(_) => GoalsKey
    case MealList(_) => MealsKey
    case ActivityList(_) => ActivitiesKey
    case ProfileValue(_) => CurrentUserProfileKey
  }

  /** What a page reads for a key with no entry: the pages' `data = []`
      defaults for the collections, and no profile. */
  function Nothing(k: QueryKey): Snapshot
  {
    match k
    case WorkoutsKey => WorkoutList([])
    case GoalsKey => GoalList([])
    case MealsKey => MealList([])
    case ActivitiesKey => ActivityList([])
    case CurrentUserProfileKey => ProfileValue(Backend.None)
  }

  /** One cached query. */
  datatype Entry = Entry(freshness: Freshness, data: Snapshot)

  type Cache = map<QueryKey, Entry>

  /** Every entry holds data of its own key's kind. */
  predicate WellKeyed(cache: Cache)
  {
    forall k :: k in cache ==> KeyOf(cache[k].data) == k
  }

  /** The data a page sees for `k`: the cached data, stale or not, and the
      empty default while there is no entry. */
  function Read(cache: Cache, k: QueryKey): Snapshot
  {
    if k in cache then cache[k].data else Nothing(k)
  }

  /** One kind per mutation hook. */
  datatype MutationKind =
    | SaveWorkout | DeleteWorkout
    | SaveGoal | DeleteGoal
    | SaveMeal | DeleteMeal
    | StartActivity | EndActivity
    | UpdateProfile | ExportData | DeleteAllData

  /** How a mutation ended: `mutationFn` throws before calling the service
      when there is no actor; otherwise the remote call resolves or rejects. */
  datatype MutationResult = Succeeded | ActorNotAvailable | BackendFailed

  /** How a page's save handler ended: its own validation refused the form
      (no call), a conversion threw before the call (`BigInt` of a bad
      string), or the mutation settled with a result. */
  datatype SaveOutcome = Invalid | Threw | Settled(result: MutationResult)

  function ResultOf(hasActor: bool, backendOk: bool): MutationResult
  {
    if !hasActor then ActorNotAvailable else if !backendOk then BackendFailed else Succeeded
  }

  /** The keys each hook's `onSuccess` passes to `invalidateQueries`. */
  function Invalidates(m: MutationKind): set<QueryKey>
  {
    match m
    case SaveWorkout => {WorkoutsKey, GoalsKey}
    case DeleteWorkout => {WorkoutsKey, GoalsKey}
    case SaveGoal => {GoalsKey}
    case DeleteGoal => {GoalsKey}
    case SaveMeal => {MealsKey, GoalsKey}
    case DeleteMeal => {MealsKey, GoalsKey}
    case StartActivity => {ActivitiesKey}
    case EndActivity => {ActivitiesKey, GoalsKey}
    case UpdateProfile => {CurrentUserProfileKey}
    case ExportData => {}
    case DeleteAllData => {}
  }

  /** Only delete-all calls `queryClient.clear()`. */
  predicate ClearsCache(m: MutationKind)
  {
    m == DeleteAllData
  }

  /** Invalidation marks the cached entries among `keys` stale and keeps
      their data; keys with no entry stay absent. */
  function MarkStale(cache: Cache, keys: set<QueryKey>): Cache
  {
    map k | k in cache :: if k in keys then Entry(Stale, cache[k].data) else cache[k]
  }

  /** The cache after a mutation settles with `result`. */
  function AfterMutation(cache: Cache, m: MutationKind, result: MutationResult): Cache
  {
    if result != Succeeded then cache
    else if ClearsCache(m) then map[]
    else MarkStale(cache, Invalidates(m))
  }

  /** A collection query runs only with an actor that is not being fetched. */
  predicate QueryEnabled(hasActor: bool, actorFetching: bool)
  {
    hasActor && !actorFetching
  }

  /** Invalidating one key and then another marks both. */
  lemma MarkStaleTwice(cache: Cache, a: QueryKey, b: QueryKey)
    ensures MarkStale(MarkStale(cache, {a}), {b}) == MarkStale(cache, {a, b})
  {
  }

  /** Invalidating no key changes nothing. */
  lemma MarkStaleNone(cache: Cache)
    ensures MarkStale(cache, {}) == cache
  {
  }

  /** A collection query's `queryFn`: with no actor it yields the empty
      list, otherwise the service's snapshot. */
  function QueryResult(hasActor: bool, remote: Snapshot): Snapshot
  {
    if !hasActor then Nothing(KeyOf(remote)) else remote
  }

  /** How one run of a collection query ended. */
  datatype FetchStatus = Disabled | Loaded | Failed

  /** The cache after a collection query for `remote`'s key runs (or not):
      a disabled query changes nothing, a rejected `queryFn` keeps what was
      cached, a resolved one caches its result as fresh. */
  function FetchEffect(cache: Cache, remote: Snapshot, hasActor: bool, actorFetching: bool,
                       backendOk: bool): Cache
  {
    if QueryEnabled(hasActor, actorFetching) && backendOk
    then cache[KeyOf(remote) := Entry(Fresh, QueryResult(hasActor, remote))]
    else cache
  }

  /** After a resolved fetch the page sees exactly the service's snapshot
      (the `queryFn`'s no-actor branch is never taken, because the query is
      disabled without an actor); every other key reads as before, a failed
      or disabled fetch changes no read, and entries keep their kind. */
  lemma FetchReads(cache: Cache, remote: Snapshot, hasActor: bool, actorFetching: bool,
                   backendOk: bool, k: QueryKey)
    ensures var after := FetchEffect(cache, remote, hasActor, actorFetching, backendOk);
            && (QueryEnabled(hasActor, actorFetching) && backendOk ==>
                  Read(after, KeyOf(remote)) == remote && after[KeyOf(remote)].freshness == Fresh)
            && (k != KeyOf(remote) ==> Read(after, k) == Read(cache, k))
            && (!(QueryEnabled(hasActor, actorFetching) && backendOk) ==> Read(after, k) == Read(cache, k))
            && (WellKeyed(cache) ==> WellKeyed(after))
  {
  }

  /** The collection queries a session runs, in order, all with the same
      actor state. */
  datatype FetchRequest = FetchRequest(remote: Snapshot, actorFetching: bool, backendOk: bool)

  function FetchAll(cache: Cache, hasActor: bool, reqs: seq<FetchRequest>): Cache
    decreases |reqs|
  {
    if reqs == [] then cache
    else FetchAll(FetchEffect(cache, reqs[0].remote, hasActor, reqs[0].actorFetching, reqs[0].backendOk),
                  hasActor, reqs[1..])
  }

  /** Without an actor no query runs, whatever the pages ask for. */
  lemma {:induction false} NoActorFetchesNothing(cache: Cache, reqs: seq<FetchRequest>)
    ensures FetchAll(cache, false, reqs) == cache
  {
    if reqs != [] {
      NoActorFetchesNothing(cache, reqs[1..]);
    }
  }

  /** Starting from an empty cache (a new client, or one just cleared), a
      session with no actor sees only the empty defaults on every page. */
  lemma SignedOutSeesNothing(reqs: seq<FetchRequest>, k: QueryKey)
    ensures Read(FetchAll(map[], false, reqs), k) == Nothing(k)
  {
    NoActorFetchesNothing(map[], reqs);
  }

  /** The shared `QueryClient`. */
  class QueryClient {
    var entries: Cache

    constructor ()
      ensures entries == map[]
    {
      entries := map[];
    }

    /** `invalidateQueries({ queryKey: [k] })`. */
    method InvalidateQueries(k: QueryKey)
      modifies this
      ensures entries == MarkStale(old(entries), {k})
    {
      entries := map q | q in entries :: if q == k then Entry(Stale, entries[q].data) else entries[q];
    }

    /** Two `invalidateQueries` calls in a row, as most `onSuccess`
        handlers make. */
    method InvalidateBoth(a: QueryKey, b: QueryKey)
      modifies this
      ensures entries == MarkStale(old(entries), {a, b})
    {
      InvalidateQueries(a);
      InvalidateQueries(b);
      MarkStaleTwice(old(entries), a, b);
    }

    /** `clear()`: every cached entry is removed. */
    method Clear()
      modifies this
      ensures entries == map[]
    {
      entries := map[];
    }

    /** One run of a collection query (`useWorkouts`, `useGoals`,
        `useMeals` or `useActivities`): enabled only with an actor that is
        not being fetched; `backendOk` is whether the service call resolves
        with `remote`. */
    method Fetch(remote: Snapshot, hasActor: bool, actorFetching: bool, backendOk: bool)
      returns (status: FetchStatus)
      requires !remote.ProfileValue?
      modifies this
      ensures status == if !QueryEnabled(hasActor, actorFetching) then Disabled
                        else if backendOk then Loaded else Failed
      ensures entries == FetchEffect(old(entries), remote, hasActor, actorFetching, backendOk)
      ensures status == Loaded ==> Read(entries, KeyOf(remote)) == remote
      ensures status != Loaded ==> entries == old(entries)
    {
      if !(hasActor && !actorFetching) {
        return Disabled;
      }
      if !backendOk {
        return Failed;
      }
      entries := entries[KeyOf(remote) := Entry(Fresh, QueryResult(hasActor, remote))];
      status := Loaded;
    }

    /** The `onSuccess` handler of each hook. */
    method OnSuccess(m: MutationKind)
      modifies this
      ensures entries == AfterMutation(old(entries), m, Succeeded)
    {
      match m
      case SaveWorkout =>
        InvalidateBoth(WorkoutsKey, GoalsKey);
      case DeleteWorkout =>
        InvalidateBoth(WorkoutsKey, GoalsKey);
      case SaveGoal =>
        InvalidateQueries(GoalsKey);
      case DeleteGoal =>
        InvalidateQueries(GoalsKey);
      case SaveMeal =>
        InvalidateBoth(MealsKey, GoalsKey);
      case DeleteMeal =>
        InvalidateBoth(MealsKey, GoalsKey);
      case StartActivity =>
        InvalidateQueries(ActivitiesKey);
      case EndActivity =>
        InvalidateBoth(ActivitiesKey, GoalsKey);
      case UpdateProfile =>
        InvalidateQueries(CurrentUserProfileKey);
      case ExportData =>
        MarkStaleNone(entries);
      case DeleteAllData =>
        Clear();
    }

    /** `mutateAsync` on a hook: throw without an actor, otherwise call the
        service (whose answer is `backendOk`) and run `onSuccess` only when
        the call resolves. */
    method Mutate(m: MutationKind, hasActor: bool, backendOk: bool) returns (result: MutationResult)
      modifies this
      ensures result == ResultOf(hasActor, backendOk)
      ensures entries == AfterMutation(old(entries), m, result)
    {
      if !hasActor {
        return ActorNotAvailable;
      }
      if !backendOk {
        return BackendFailed;
      }
      OnSuccess(m);
      result := Succeeded;
    }
  }

  /** A successful mutation leaves the cached keys as they were, marks
      exactly its own keys stale and keeps every other entry as it was. */
  lemma InvalidationEffect(cache: Cache, m: MutationKind)
    requires !ClearsCache(m)
    ensures AfterMutation(cache, m, Succeeded).Keys == cache.Keys
    ensures forall k :: k in cache ==>
      AfterMutation(cache, m, Succeeded)[k] == (if k in Invalidates(m) then Entry(Stale, cache[k].data) else cache[k])
  {
  }

  /** Invalidation does not take data away: until the refetch every page
      reads what it read before, and entries keep their kind. Only
      delete-all does, and after it every page reads the empty default. */
  lemma InvalidationKeepsData(cache: Cache, m: MutationKind, k: QueryKey)
    ensures !ClearsCache(m) ==> Read(AfterMutation(cache, m, Succeeded), k) == Read(cache, k)
    ensures !ClearsCache(m) && WellKeyed(cache) ==> WellKeyed(AfterMutation(cache, m, Succeeded))
    ensures ClearsCache(m) ==> Read(AfterMutation(cache, m, Succeeded), k) == Nothing(k)
  {
  }

  /** Saving or deleting a workout invalidates exactly workouts and goals. */
  lemma WorkoutMutationsInvalidate(m: MutationKind)
    requires m == SaveWorkout || m == DeleteWorkout
    ensures forall k :: k in Invalidates(m) <==> k == WorkoutsKey || k == GoalsKey
  {
  }

  /** Saving or deleting a goal invalidates only goals. */
  lemma GoalMutationsInvalidate(m: MutationKind)
    requires m == SaveGoal || m == DeleteGoal
    ensures forall k :: k in Invalidates(m) <==> k == GoalsKey
  {
  }

  /** Saving or deleting a meal marks meals and goals stale and leaves the
      workout and activity entries untouched. */
  lemma MealMutationsInvalidate(cache: Cache, m: MutationKind)
    requires m == SaveMeal || m == DeleteMeal
    ensures var after := AfterMutation(cache, m, Succeeded);
            && (MealsKey in cache ==> after[MealsKey].freshness == Stale)
            && (GoalsKey in cache ==> after[GoalsKey].freshness == Stale)
            && (WorkoutsKey in cache ==> WorkoutsKey in after && after[WorkoutsKey] == cache[WorkoutsKey])
            && (ActivitiesKey in cache ==> ActivitiesKey in after && after[ActivitiesKey] == cache[ActivitiesKey])
  {
  }

  /** Starting an activity invalidates only activities; ending one also
      invalidates goals. */
  lemma ActivityMutationsInvalidate()
    ensures forall k :: k in Invalidates(StartActivity) <==> k == ActivitiesKey
    ensures forall k :: k in Invalidates(EndActivity) <==> k == ActivitiesKey || k == GoalsKey
  {
  }

  /** Updating the profile invalidates only the profile; exporting
      invalidates nothing and leaves the cache as it was. */
  lemma ProfileAndExportInvalidate(cache: Cache)
    ensures forall k :: k in Invalidates(UpdateProfile) <==> k == CurrentUserProfileKey
    ensures AfterMutation(cache, ExportData, Succeeded) == cache
  {
    assert MarkStale(cache, {}) == cache;
  }

  /** Every mutation that can move a goal's progress (workouts, meals and
      finished activities) invalidates goals; starting an activity does not. */
  lemma GoalsFollowProgressSources(m: MutationKind)
    ensures GoalsKey in Invalidates(m) <==>
            m in {SaveWorkout, DeleteWorkout, SaveGoal, DeleteGoal, SaveMeal, DeleteMeal, EndActivity}
  {
  }

  /** A successful delete-all leaves no cached entry at all. */
  lemma DeleteAllEmptiesCache(cache: Cache)
    ensures AfterMutation(cache, DeleteAllData, Succeeded) == map[]
    ensures forall k :: k !in AfterMutation(cache, DeleteAllData, Succeeded)
  {
  }

  /** Without an actor, or when the service rejects the call, the cache is
      exactly as it was. */
  lemma FailureLeavesCache(cache: Cache, m: MutationKind, hasActor: bool, backendOk: bool)
    requires !hasActor || !backendOk
    ensures ResultOf(hasActor, backendOk) != Succeeded
    ensures AfterMutation(cache, m, ResultOf(hasActor, backendOk)) == cache
  {
  }

  /** Invalidating is idempotent: a repeated successful mutation changes
      nothing further. */
  lemma MutationIdempotent(cache: Cache, m: MutationKind)
    ensures AfterMutation(AfterMutation(cache, m, Succeeded), m, Succeeded) == AfterMutation(cache, m, Succeeded)
  {
  }
}
