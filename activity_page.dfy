/** The activity tracker (src/frontend/src/pages/ActivityPage.tsx): a
    session that starts, counts seconds while tracking and ends by sending
    metrics simulated from the elapsed time and the activity type.

    Starting and ending each await a mutation. The synchronous part of a
    handler (up to the `await`) and its continuation (after the mutation
    settles) are separate methods, so ticks may run between them as they
    do in the page. */
module ActivityPage {
  import opened Backend
  import Text
  import Seqs
  import NutritionEstimator
  import QueryCache

  /** `baseSteps`, `baseDistance` and `baseCalories` per minute. */
  function BaseSteps(t: ActivityType): real
  {
    if t == Walk then 100.0 else if t == Run then 150.0 else 0.0
  }

  function BaseDistance(t: ActivityType): real
  {
    if t == Walk then 0.08 else if t == Run then 0.15 else 0.25
  }

  function BaseCalories(t: ActivityType): real
  {
    if t == Walk then 4.0 else if t == Run then 10.0 else 8.0
  }

  /** The arguments `handleEndActivity` passes to the end mutation. */
  datatype EndRequest = EndRequest(id: string, steps: int, calories: real,
                                   distanceKm: real, durationMinutes: real)

  /** The arguments `handleStartActivity` passes to the start mutation. */
  datatype StartRequest = StartRequest(id: string, activityType: ActivityType)

  /** The simulated end-of-session metrics for `elapsedSeconds`. */
  function SessionMetrics(id: string, t: ActivityType, elapsedSeconds: nat): EndRequest
  {
    var minutes := elapsedSeconds as real / 60.0;
    EndRequest(id, NutritionEstimator.Round(BaseSteps(t) * minutes),
               BaseCalories(t) * minutes, BaseDistance(t) * minutes, minutes)
  }

  /** The metrics are proportional to the elapsed minutes: steps are the
      nearest whole number to the rate times the minutes (always 0 when
      cycling), distance and calories are exactly rate times minutes, and
      none is negative. */
  lemma MetricsProportional(id: string, t: ActivityType, elapsedSeconds: nat)
    ensures var r := SessionMetrics(id, t, elapsedSeconds);
            && r.id == id
            && r.durationMinutes * 60.0 == elapsedSeconds as real
            && BaseSteps(t) * r.durationMinutes - 0.5 < r.steps as real <= BaseSteps(t) * r.durationMinutes + 0.5
            && (t == Cycle ==> r.steps == 0)
            && r.distanceKm == BaseDistance(t) * r.durationMinutes
            && r.calories == BaseCalories(t) * r.durationMinutes
            && r.steps >= 0 && r.distanceKm >= 0.0 && r.calories >= 0.0
  {
    var r := SessionMetrics(id, t, elapsedSeconds);
    NutritionEstimator.RoundWhole(0);
    assert BaseSteps(t) * r.durationMinutes >= 0.0;
    NutritionEstimator.RoundNonNegative(BaseSteps(t) * r.durationMinutes);
  }

  /** A longer session never reports fewer steps, less distance or fewer
      calories. */
  lemma MetricsMonotone(t: ActivityType, s1: nat, s2: nat)
    requires s1 <= s2
    ensures SessionMetrics("", t, s1).steps <= SessionMetrics("", t, s2).steps
    ensures SessionMetrics("", t, s1).distanceKm <= SessionMetrics("", t, s2).distanceKm
    ensures SessionMetrics("", t, s1).calories <= SessionMetrics("", t, s2).calories
  {
    var m1, m2 := s1 as real / 60.0, s2 as real / 60.0;
    assert BaseSteps(t) * m1 <= BaseSteps(t) * m2;
    assert BaseDistance(t) * m1 <= BaseDistance(t) * m2;
    assert BaseCalories(t) * m1 <= BaseCalories(t) * m2;
  }

  /** A 125-second run: 125/60 minutes, 312.5 steps rounded half up to 313,
      0.3125 km and 20.8333... kcal. */
  lemma RunOf125Seconds()
    ensures var r := SessionMetrics("1", Run, 125);
            && r.durationMinutes == 125.0 / 60.0
            && r.steps == 313
            && r.distanceKm == 0.3125
            && r.calories == 1250.0 / 60.0
  {
    assert 150.0 * (125.0 / 60.0) == 312.5;
  }

  /** `formatTime`'s decomposition of a second count. */
  function Clock(seconds: nat): (hms: (nat, nat, nat))
    ensures hms.0 * 3600 + hms.1 * 60 + hms.2 == seconds
    ensures hms.1 < 60 && hms.2 < 60
  {
    (seconds / 3600, (seconds % 3600) / 60, seconds % 60)
  }

  /** `formatTime(seconds)`: hours, minutes and seconds, each zero-padded
      to at least two digits, joined by colons. */
  function FormatTime(seconds: nat): string
  {
    var (h, m, s) := Clock(seconds);
    Text.PadStart2(Text.DecimalString(h)) + ":" + Text.PadStart2(Text.DecimalString(m)) + ":"
      + Text.PadStart2(Text.DecimalString(s))
  }

  /** The clock three digit fields show; `None` when one is not digits. */
  function ReadFields(hours: string, minutes: string, secs: string): Option<int>
  {
    if Text.AllDigits(hours) && Text.AllDigits(minutes) && Text.AllDigits(secs) then
      Some(Text.DigitsValue(hours) * 3600 + Text.DigitsValue(minutes) * 60 + Text.DigitsValue(secs))
    else None
  }

  /** Reads a clock display back: the hours are everything before the
      last six characters, minutes and seconds the two-digit fields. */
  function ParseClock(display: string): Option<int>
  {
    if |display| < 8 || display[|display| - 3] != ':' || display[|display| - 6] != ':' then None
    else ReadFields(display[..|display| - 6], display[|display| - 5..|display| - 3], display[|display| - 2..])
  }

  /** Where the fields of a joined display sit: the two colons six and
      three places from the end, the fields between them. */
  lemma JoinedFields(hp: string, mp: string, sp: string)
    requires |hp| >= 2 && |mp| == 2 && |sp| == 2
    ensures var d := hp + ":" + mp + ":" + sp;
            && |d| >= 8 && d[|d| - 3] == ':' && d[|d| - 6] == ':'
            && d[..|d| - 6] == hp && d[|d| - 5..|d| - 3] == mp && d[|d| - 2..] == sp
  {
    var d := hp + ":" + mp + ":" + sp;
    assert d[..|d| - 6] == hp;
    assert d[|d| - 5..|d| - 3] == mp;
  }

  /** Three digit fields joined by colons, the last two two digits wide,
      read back as the clock they show. */
  lemma ParseJoined(hp: string, mp: string, sp: string)
    requires Text.AllDigits(hp) && Text.AllDigits(mp) && Text.AllDigits(sp)
    requires |hp| >= 2 && |mp| == 2 && |sp| == 2
    ensures ParseClock(hp + ":" + mp + ":" + sp).Some?
    ensures ParseClock(hp + ":" + mp + ":" + sp).value
            == Text.DigitsValue(hp) * 3600 + Text.DigitsValue(mp) * 60 + Text.DigitsValue(sp)
  {
    JoinedFields(hp, mp, sp);
    var d := hp + ":" + mp + ":" + sp;
    assert ParseClock(d) == ReadFields(hp, mp, sp);
  }

  /** The display determines the second count: reading it back gives the
      seconds shown, and the minute and second fields are two digits wide. */
  lemma FormatTimeRoundTrip(seconds: nat)
    ensures |FormatTime(seconds)| >= 8
    ensures ParseClock(FormatTime(seconds)) == Some(seconds)
  {
    var (h, m, s) := Clock(seconds);
    var hs, ms, ss := Text.DecimalString(h), Text.DecimalString(m), Text.DecimalString(s);
    Text.DecimalStringShort(m);
    Text.DecimalStringShort(s);
    Text.PadStart2Value(hs);
    Text.PadStart2Value(ms);
    Text.PadStart2Value(ss);
    Text.DecimalRoundTrip(h);
    Text.DecimalRoundTrip(m);
    Text.DecimalRoundTrip(s);
    ParseJoined(Text.PadStart2(hs), Text.PadStart2(ms), Text.PadStart2(ss));
  }

  /** An activity whose session has ended. */
  predicate Finished(a: Activity)
  {
    !a.isActive
  }

  /** The history lists the finished activities, newest first. */
  function History(activities: seq<Activity>): seq<Activity>
  {
    Seqs.Reverse(Seqs.Filter(activities, Finished))
  }

  /** Every listed activity is finished, every finished one is listed,
      and the order is the stored order reversed. */
  lemma HistoryContents(activities: seq<Activity>)
    ensures forall i :: 0 <= i < |History(activities)| ==>
              !History(activities)[i].isActive && History(activities)[i] in activities
    ensures forall a :: a in activities && !a.isActive ==> a in History(activities)
    ensures var done := Seqs.Filter(activities, Finished);
            forall i :: 0 <= i < |done| ==> History(activities)[i] == done[|done| - 1 - i]
  {
    Seqs.ReverseFilterContents(activities, Finished);
  }

  /** The tracker's state. `activityType` is the select box. */
  class ActivityTracker {
    var activityType: ActivityType
    var isTracking: bool
    var currentActivityId: string
    var elapsedSeconds: nat

    /** While tracking there is always a session id to end. */
    ghost predicate Valid()
      reads this
    {
      isTracking ==> currentActivityId != ""
    }

    constructor ()
      ensures Valid()
      ensures activityType == Walk && !isTracking && currentActivityId == "" && elapsedSeconds == 0
    {
      activityType := Walk;
      isTracking := false;
      currentActivityId := "";
      elapsedSeconds := 0;
    }

    method SelectType(t: ActivityType)
      requires Valid()
      modifies this
      ensures Valid()
      ensures activityType == t
      ensures isTracking == old(isTracking) && currentActivityId == old(currentActivityId)
      ensures elapsedSeconds == old(elapsedSeconds)
    {
      activityType := t;
    }

    /** The part of `handleStartActivity` before the `await`: a new id from
        the clock (`Date.now().toString()`), tracking on, timer at zero. */
    method BeginStart(nowMs: nat) returns (request: StartRequest)
      requires Valid()
      modifies this
      ensures Valid()
      ensures currentActivityId == Text.DecimalString(nowMs) && currentActivityId != ""
      ensures isTracking && elapsedSeconds == 0
      ensures activityType == old(activityType)
      ensures request == StartRequest(currentActivityId, activityType)
    {
      currentActivityId := Text.DecimalString(nowMs);
      isTracking := true;
      elapsedSeconds := 0;
      request := StartRequest(currentActivityId, activityType);
    }

    /** The continuation once the start mutation settles: on failure,
        tracking stops; the id and the elapsed time stay as they are. */
    method FinishStart(client: QueryCache.QueryClient, hasActor: bool, backendOk: bool)
      returns (result: QueryCache.MutationResult)
      requires Valid()
      modifies this, client
      ensures Valid()
      ensures result == QueryCache.ResultOf(hasActor, backendOk)
      ensures client.entries == QueryCache.AfterMutation(old(client.entries), QueryCache.StartActivity, result)
      ensures isTracking == (old(isTracking) && result == QueryCache.Succeeded)
      ensures currentActivityId == old(currentActivityId) && elapsedSeconds == old(elapsedSeconds)
      ensures activityType == old(activityType)
    {
      result := client.Mutate(QueryCache.StartActivity, hasActor, backendOk);
      if result != QueryCache.Succeeded {
        isTracking := false;
      }
    }

    /** One firing of the one-second interval, which exists only while
        tracking. */
    method Tick()
      requires Valid()
      modifies this
      ensures Valid()
      ensures elapsedSeconds == old(elapsedSeconds) + (if isTracking then 1 else 0)
      ensures isTracking == old(isTracking) && currentActivityId == old(currentActivityId)
      ensures activityType == old(activityType)
    {
      if isTracking {
        elapsedSeconds := elapsedSeconds + 1;
      }
    }

    /** The part of `handleEndActivity` before the `await`: nothing happens
        without a session id; otherwise the metrics for the current type
        and elapsed time are computed. */
    method BeginEnd() returns (request: Option<EndRequest>)
      requires Valid()
      ensures request.None? <==> currentActivityId == ""
      ensures request.Some? ==>
                request.value == SessionMetrics(currentActivityId, activityType, elapsedSeconds)
    {
      if currentActivityId == "" {
        return None;
      }
      var minutes := elapsedSeconds as real / 60.0;
      var steps := NutritionEstimator.Round(BaseSteps(activityType) * minutes);
      var distanceKm := BaseDistance(activityType) * minutes;
      var calories := BaseCalories(activityType) * minutes;
      request := Some(EndRequest(currentActivityId, steps, calories, distanceKm, minutes));
    }

    /** The continuation once the end mutation settles: success resets the
        session; failure leaves the state as it is so the user can retry. */
    method FinishEnd(client: QueryCache.QueryClient, hasActor: bool, backendOk: bool)
      returns (result: QueryCache.MutationResult)
      requires Valid()
      modifies this, client
      ensures Valid()
      ensures result == QueryCache.ResultOf(hasActor, backendOk)
      ensures client.entries == QueryCache.AfterMutation(old(client.entries), QueryCache.EndActivity, result)
      ensures result == QueryCache.Succeeded ==>
                !isTracking && currentActivityId == "" && elapsedSeconds == 0
      ensures result != QueryCache.Succeeded ==>
                isTracking == old(isTracking) && currentActivityId == old(currentActivityId)
                && elapsedSeconds == old(elapsedSeconds)
      ensures activityType == old(activityType)
    {
      result := client.Mutate(QueryCache.EndActivity, hasActor, backendOk);
      if result == QueryCache.Succeeded {
        isTracking := false;
        currentActivityId := "";
        elapsedSeconds := 0;
      }
    }
  }

  /** A session started, ticked `n` times and ended reports the metrics of
      `n` seconds, and a successful end returns the tracker to idle. */
  method SessionScenario(t: ActivityType, nowMs: nat, n: nat, client: QueryCache.QueryClient)
    returns (request: Option<EndRequest>)
    modifies client
    ensures request == Some(SessionMetrics(Text.DecimalString(nowMs), t, n))
  {
    var tracker := new ActivityTracker();
    tracker.SelectType(t);
    var started := tracker.BeginStart(nowMs);
    var result := tracker.FinishStart(client, true, true);
    var i := 0;
    while i < n
      invariant 0 <= i <= n
      invariant tracker.Valid() && tracker.isTracking && tracker.elapsedSeconds == i
      invariant tracker.activityType == t && tracker.currentActivityId == Text.DecimalString(nowMs)
    {
      tracker.Tick();
      i := i + 1;
    }
    request := tracker.BeginEnd();
    var ended := tracker.FinishEnd(client, true, true);
    assert !tracker.isTracking && tracker.currentActivityId == "" && tracker.elapsedSeconds == 0;
  }
}
