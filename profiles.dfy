/** How the pages read the unit preference out of a profile, and the
    profile record the two profile forms build. The pages test the
    preference as an object variant (`'metric' in units`); the
    dashboard, workouts and activity pages fall back to metric when there
    is no profile, the settings page to imperial. */
module Profiles {
  import opened Backend
  import Text

  /** The dashboard, workouts and activity pages:
      `units = userProfile?.units || { metric: null }` and then
      `typeof units === 'object' && 'metric' in units`. */
  function PageIsMetric(profile: Option<UserProfile>): bool
  {
    var units := if profile.Some? && Truthy(profile.value.units) then profile.value.units
                 else ObjectVariant({"metric"});
    units.ObjectVariant? && "metric" in units.keys
  }

  /** The settings page's initial radio selection. */
  function SettingsInitialUnits(profile: Option<UserProfile>): UnitSystem
  {
    if profile.Some? && Truthy(profile.value.units) && profile.value.units.ObjectVariant?
       && "metric" in profile.value.units.keys
    then Metric
    else Imperial
  }

  /** The settings page's initial name field: `userProfile?.displayName || ''`. */
  function SettingsInitialName(profile: Option<UserProfile>): string
  {
    if profile.Some? then profile.value.displayName else ""
  }

  /** `{ [units]: null }`: the single-key variant both profile forms send. */
  function UnitsVariant(u: UnitSystem): Wire
  {
    ObjectVariant({UnitSystemName(u)})
  }

  /** The profile both forms submit: a trimmed name and the chosen units;
      a name that trims to nothing is rejected before any call. */
  function ProfileSubmission(displayName: string, units: UnitSystem): Option<UserProfile>
  {
    if Text.Trim(displayName) == "" then None
    else Some(UserProfile(Text.Trim(displayName), UnitsVariant(units)))
  }

  /** A submission is rejected exactly when the name is blank; an accepted
      one carries the trimmed name, which is never blank. */
  lemma SubmissionRejectsBlank(displayName: string, units: UnitSystem)
    ensures ProfileSubmission(displayName, units).None? <==> Text.Blank(displayName)
    ensures ProfileSubmission(displayName, units).Some? ==>
              ProfileSubmission(displayName, units).value.displayName == Text.Trim(displayName)
              && !Text.Blank(ProfileSubmission(displayName, units).value.displayName)
  {
    Text.TrimEmptyIffBlank(displayName);
    Text.TrimIdempotent(displayName);
    Text.TrimEmptyIffBlank(Text.Trim(displayName));
  }

  /** A submitted profile reads back as submitted: every page sees the
      chosen unit system, and the settings form starts from the saved name
      and units. */
  lemma SubmissionReadsBack(displayName: string, units: UnitSystem)
    requires ProfileSubmission(displayName, units).Some?
    ensures var p := ProfileSubmission(displayName, units);
            && (PageIsMetric(p) <==> units == Metric)
            && SettingsInitialUnits(p) == units
            && SettingsInitialName(p) == Text.Trim(displayName)
  {
  }

  /** The two defaults disagree: with no profile the pages show metric
      while the settings form starts on imperial. */
  lemma DefaultsDisagree()
    ensures PageIsMetric(None)
    ensures SettingsInitialUnits(None) == Imperial
  {
  }

  /** With a profile present the settings form and the pages agree. */
  lemma PresentProfileAgrees(p: UserProfile)
    requires Truthy(p.units)
    ensures PageIsMetric(Some(p)) <==> SettingsInitialUnits(Some(p)) == Metric
  {
  }

  /** A preference stored in the declared string-enum form is never
      recognised as metric: `'metric' in units` is false for a string. */
  lemma EnumFormReadsImperial(name: string, u: UnitSystem)
    ensures !PageIsMetric(Some(UserProfile(name, StringValue(UnitSystemName(u)))))
    ensures SettingsInitialUnits(Some(UserProfile(name, StringValue(UnitSystemName(u))))) == Imperial
  {
  }
}
