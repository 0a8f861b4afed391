/** The first-run profile dialog
    (src/frontend/src/components/auth/ProfileSetupDialog.tsx). */
module ProfileSetup {
  import opened Backend
  import Text
  import Profiles
  import QueryCache

  /** The dialog's form: an empty name and metric units to begin with. */
  class SetupForm {
    var displayName: string
    var units: UnitSystem

    constructor ()
      ensures displayName == "" && units == Metric
    {
      displayName := "";
      units := Metric;
    }

    /** `handleSubmit`: a blank name is refused before any call; otherwise
        the trimmed name and the chosen units are sent. */
    method Submit(client: QueryCache.QueryClient, hasActor: bool, backendOk: bool)
      returns (outcome: QueryCache.SaveOutcome, sent: Option<UserProfile>)
      modifies client
      ensures sent == (if outcome.Settled? then Profiles.ProfileSubmission(displayName, units) else None)
      ensures outcome == QueryCache.Invalid <==> Text.Blank(displayName)
      ensures outcome != QueryCache.Threw
      ensures outcome.Settled? ==> outcome.result == QueryCache.ResultOf(hasActor, backendOk)
      ensures client.entries == if outcome.Settled?
                                then QueryCache.AfterMutation(old(client.entries), QueryCache.UpdateProfile, outcome.result)
                                else old(client.entries)
    {
      Profiles.SubmissionRejectsBlank(displayName, units);
      if Text.Trim(displayName) == "" {
        return QueryCache.Invalid, None;
      }
      var profile := UserProfile(Text.Trim(displayName), Profiles.UnitsVariant(units));
      var result := client.Mutate(QueryCache.UpdateProfile, hasActor, backendOk);
      outcome, sent := QueryCache.Settled(result), Some(profile);
    }
  }

  /** Submitting the untouched dialog is refused: the default name is
      empty. */
  method UntouchedSubmitScenario(client: QueryCache.QueryClient) returns (outcome: QueryCache.SaveOutcome)
    modifies client
    ensures outcome == QueryCache.Invalid
    ensures client.entries == old(client.entries)
  {
    var form := new SetupForm();
    Text.TrimEmptyIffBlank("");
    var sent;
    outcome, sent := form.Submit(client, true, true);
  }
}
