/** The application shell (src/frontend/src/App.tsx): which screen the
    root shows, whether the first-run profile dialog is open, and the
    route table. */
module App {
  import Backend

  /** The profile query's data: not yet known, known to be absent
      (`null`), or a stored profile. */
  datatype ProfileData = NotLoaded | NoProfile | Loaded(profile: Backend.UserProfile)

  datatype Screen = SignedOut | Loading | Layout(setupDialogOpen: bool)

  /** `showProfileSetup`. */
  predicate ShowProfileSetup(isAuthenticated: bool, profileLoading: bool, isFetched: bool,
                             profile: ProfileData)
  {
    isAuthenticated && !profileLoading && isFetched && profile == NoProfile
  }

  /** `LayoutWrapper`: signed out first, then the loading screen while the
      actor or the profile is on its way, then the layout with the setup
      dialog as `showProfileSetup` says. */
  function LayoutWrapper(isAuthenticated: bool, actorFetching: bool, profileLoading: bool,
                         isFetched: bool, profile: ProfileData): Screen
  {
    if !isAuthenticated then SignedOut
    else if actorFetching || profileLoading || !isFetched then Loading
    else Layout(ShowProfileSetup(isAuthenticated, profileLoading, isFetched, profile))
  }

  /** Signing out wins over every loading flag; an authenticated user
      sees the loading screen exactly while something is pending and the
      layout otherwise. */
  lemma ScreenChoice(isAuthenticated: bool, actorFetching: bool, profileLoading: bool,
                     isFetched: bool, profile: ProfileData)
    ensures var s := LayoutWrapper(isAuthenticated, actorFetching, profileLoading, isFetched, profile);
            && (s == SignedOut <==> !isAuthenticated)
            && (s == Loading <==> isAuthenticated && (actorFetching || profileLoading || !isFetched))
            && (s.Layout? <==> isAuthenticated && !actorFetching && !profileLoading && isFetched)
  {
  }

  /** The dialog is shown open exactly for a signed-in user whose profile
      query has finished with no profile and whose actor is ready; a
      stored profile, or one not yet known, never opens it. */
  lemma SetupDialogOpen(isAuthenticated: bool, actorFetching: bool, profileLoading: bool,
                        isFetched: bool, profile: ProfileData)
    ensures LayoutWrapper(isAuthenticated, actorFetching, profileLoading, isFetched, profile) == Layout(true)
            <==> ShowProfileSetup(isAuthenticated, profileLoading, isFetched, profile) && !actorFetching
    ensures profile != NoProfile ==>
              LayoutWrapper(isAuthenticated, actorFetching, profileLoading, isFetched, profile) != Layout(true)
  {
  }

  datatype Page = Dashboard | Workouts | Nutrition | Activity | Goals | Settings

  /** The route tree: a path for each page. */
  const Routes: seq<(string, Page)> :=
    [("/", Dashboard), ("/workouts", Workouts), ("/nutrition", Nutrition),
     ("/activity", Activity), ("/goals", Goals), ("/settings", Settings)]

  /** The page a path leads to, if any. */
  function PageFor(path: string, routes: seq<(string, Page)>): Backend.Option<Page>
  {
    if routes == [] then Backend.None
    else if routes[0].0 == path then Backend.Some(routes[0].1)
    else PageFor(path, routes[1..])
  }

  /** Lookup finds the first route with the path. */
  lemma {:induction false} PageForFirst(path: string, routes: seq<(string, Page)>, i: nat)
    requires i < |routes| && routes[i].0 == path
    requires forall j :: 0 <= j < i ==> routes[j].0 != path
    ensures PageFor(path, routes) == Backend.Some(routes[i].1)
    decreases i
  {
    if i > 0 {
      PageForFirst(path, routes[1..], i - 1);
    }
  }

  /** The path of each page's link. */
  function PathOf(p: Page): string
  {
    match p
    case Dashboard => "/"
    case Workouts => "/workouts"
    case Nutrition => "/nutrition"
    case Activity => "/activity"
    case Goals => "/goals"
    case Settings => "/settings"
  }

  /** Six routes with distinct paths and distinct pages; every page's
      path leads to that page, and each route is its page's path. */
  lemma RoutesDistinct()
    ensures |Routes| == 6
    ensures forall i, j :: 0 <= i < j < |Routes| ==> Routes[i].0 != Routes[j].0 && Routes[i].1 != Routes[j].1
    ensures forall i :: 0 <= i < |Routes| ==> Routes[i].0 == PathOf(Routes[i].1)
    ensures forall p: Page :: PageFor(PathOf(p), Routes) == Backend.Some(p)
  {
    forall p: Page ensures PageFor(PathOf(p), Routes) == Backend.Some(p) {
      var i := match p
        case Dashboard => 0 case Workouts => 1 case Nutrition => 2
        case Activity => 3 case Goals => 4 case Settings => 5;
      PageForFirst(PathOf(p), Routes, i);
    }
  }
}
