/** Settings (src/frontend/src/pages/SettingsPage.tsx): the profile form,
    which starts from the stored profile, the export file name and the
    delete-all action. */
module SettingsPage {
  import opened Backend
  import Text
  import Profiles
  import QueryCache
  import ExportJson

  /** The file offered for download: its name and the serialised value. */
  datatype ExportFile = ExportFile(name: string, body: ExportJson.JsValue)

  /** The download name: the date part of an ISO timestamp (everything
      before the first "T") between a fixed prefix and ".json". */
  function ExportFilename(iso: string): string
  {
    "fittrack-export-" + Text.BeforeFirst(iso, 'T') + ".json"
  }

  /** For a timestamp `date + "T" + time` whose date part has no "T" the
      name carries exactly that date; a string with no "T" is kept whole. */
  lemma ExportFilenameDate(date: string, time: string)
    requires 'T' !in date
    ensures ExportFilename(date + "T" + time) == "fittrack-export-" + date + ".json"
    ensures ExportFilename(date) == "fittrack-export-" + date + ".json"
  {
    var iso := date + "T" + time;
    assert iso[|date|] == 'T';
  }

  /** The settings form. Its initial values are taken once, from the
      profile known when the page mounts. */
  class SettingsForm {
    var displayName: string
    var units: UnitSystem

    constructor (profile: Option<UserProfile>)
      ensures displayName == Profiles.SettingsInitialName(profile)
      ensures units == Profiles.SettingsInitialUnits(profile)
    {
      displayName := if profile.Some? then profile.value.displayName else "";
      units := if profile.Some? && Truthy(profile.value.units) && profile.value.units.ObjectVariant?
                  && "metric" in profile.value.units.keys
               then Metric else Imperial;
    }

    /** `handleUpdateProfile`: a blank name is refused before any call;
        otherwise the trimmed name and the selected units are sent. The
        form itself is never changed. */
    method UpdateProfile(client: QueryCache.QueryClient, hasActor: bool, backendOk: bool)
      returns (outcome: QueryCache.SaveOutcome, sent: Option<UserProfile>)
      modifies client
      ensures sent == (if outcome.Settled? then Profiles.ProfileSubmission(displayName, units) else None)
      ensures outcome == QueryCache.Invalid <==> Profiles.ProfileSubmission(displayName, units).None?
      ensures outcome != QueryCache.Threw
      ensures outcome.Settled? ==> outcome.result == QueryCache.ResultOf(hasActor, backendOk)
      ensures client.entries == if outcome.Settled?
                                then QueryCache.AfterMutation(old(client.entries), QueryCache.UpdateProfile, outcome.result)
                                else old(client.entries)
    {
      if Text.Trim(displayName) == "" {
        return QueryCache.Invalid, None;
      }
      var profile := UserProfile(Text.Trim(displayName), Profiles.UnitsVariant(units));
      var result := client.Mutate(QueryCache.UpdateProfile, hasActor, backendOk);
      outcome, sent := QueryCache.Settled(result), Some(profile);
    }

    /** `handleExportData` as written: `JSON.stringify(data, null, 2)` on
        the resolved payload throws (it always holds the bigint step
        count), so the catch shows the error toast and no file is ever
        offered, whatever the service answers. The cache is never changed. */
    method ExportDataAsWritten(client: QueryCache.QueryClient, iso: string, payload: ExportJson.ExportPayload,
                               hasActor: bool, backendOk: bool)
      returns (result: QueryCache.MutationResult, download: Option<ExportFile>)
      modifies client
      ensures result == QueryCache.ResultOf(hasActor, backendOk)
      ensures download == None
      ensures client.entries == old(client.entries)
    {
      result := client.Mutate(QueryCache.ExportData, hasActor, backendOk);
      QueryCache.ProfileAndExportInvalidate(old(client.entries));
      var json := ExportJson.PayloadJson(payload);
      ExportJson.PayloadNeverSerializable(payload);
      download := if result == QueryCache.Succeeded && ExportJson.Serializable(json)
                  then Some(ExportFile(ExportFilename(iso), json)) else None;
    }

    /** `handleExportData` as evidently intended: the payload is serialised
        with a replacer that writes each bigint as its decimal text, so once
        the export resolves a file named after today's date (`iso`, the
        current ISO timestamp) is offered, and its contents serialise. The
        cache is never changed. */
    method ExportData(client: QueryCache.QueryClient, iso: string, payload: ExportJson.ExportPayload,
                      hasActor: bool, backendOk: bool)
      returns (result: QueryCache.MutationResult, download: Option<ExportFile>)
      modifies client
      ensures result == QueryCache.ResultOf(hasActor, backendOk)
      ensures download.Some? <==> result == QueryCache.Succeeded
      ensures download.Some? ==> download.value.name == ExportFilename(iso)
                                 && download.value.body == ExportJson.Replace(ExportJson.PayloadJson(payload))
                                 && ExportJson.Serializable(download.value.body)
      ensures client.entries == old(client.entries)
    {
      result := client.Mutate(QueryCache.ExportData, hasActor, backendOk);
      QueryCache.ProfileAndExportInvalidate(old(client.entries));
      var json := ExportJson.Replace(ExportJson.PayloadJson(payload));
      ExportJson.ReplacedSerializable(ExportJson.PayloadJson(payload));
      download := if result == QueryCache.Succeeded && ExportJson.Serializable(json)
                  then Some(ExportFile(ExportFilename(iso), json)) else None;
    }

    /** `handleDeleteAllData`: on success nothing stays cached. */
    method DeleteAllData(client: QueryCache.QueryClient, hasActor: bool, backendOk: bool)
      returns (result: QueryCache.MutationResult)
      modifies client
      ensures result == QueryCache.ResultOf(hasActor, backendOk)
      ensures result == QueryCache.Succeeded ==> client.entries == map[]
      ensures result != QueryCache.Succeeded ==> client.entries == old(client.entries)
    {
      result := client.Mutate(QueryCache.DeleteAllData, hasActor, backendOk);
    }
  }

  /** Opening the settings page on a stored profile and saving it without
      edits sends the same name and unit choice back. */
  method ResaveScenario(client: QueryCache.QueryClient, name: string, u: UnitSystem)
    returns (sent: Option<UserProfile>)
    requires Profiles.ProfileSubmission(name, u).Some?
    modifies client
    ensures sent == Profiles.ProfileSubmission(Profiles.ProfileSubmission(name, u).value.displayName, u)
    ensures sent.Some? && (Profiles.PageIsMetric(sent) <==> u == Metric)
  {
    var stored := Profiles.ProfileSubmission(name, u);
    Profiles.SubmissionReadsBack(name, u);
    Profiles.SubmissionRejectsBlank(name, u);
    var shown := stored.value.displayName;
    Profiles.SubmissionRejectsBlank(shown, u);
    var form := new SettingsForm(stored);
    assert form.displayName == shown && form.units == u;
    assert Profiles.ProfileSubmission(shown, u).Some?;
    var outcome;
    outcome, sent := form.UpdateProfile(client, true, true);
    Profiles.SubmissionReadsBack(stored.value.displayName, u);
  }
}
