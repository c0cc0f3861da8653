/** The clinic settings form (frontend/src/components/SettingsPortal.tsx):
    its initial values, the merge of `GET /api/settings` over them, the
    load-error flag and the `isSaving` discipline of the save button. The
    fetch results are parameters. */
module SettingsPortal {
  import SqliteDb
  import Backend

  /** The form state: setting key to the text shown in the form. */
  type Settings = map<string, string>

  /** The state the form starts with: every field blank but the tone. */
  const InitialSettings: Settings := map[
    "clinic_name" := "", "booking_url" := "", "kapso_api_key" := "",
    "kapso_phone_id" := "", "telegram_token" := "", "ai_tone" := "friendly"]

  /** The tones the select offers. */
  const ToneOptions: set<string> := {"friendly", "professional", "urgent"}

  /** The form starts with exactly the keys the database is seeded with,
      all blank but the tone, which is one of the offered ones. */
  lemma InitialSettingsShape()
    ensures InitialSettings.Keys == SqliteDb.DefaultKeys
    ensures forall k :: k in InitialSettings && k != "ai_tone" ==> InitialSettings[k] == ""
    ensures InitialSettings["ai_tone"] == "friendly" && "friendly" in ToneOptions
  {
  }

  /** `{ ...prev, ...data }`. */
  function Merge(prev: Settings, data: Settings): (r: Settings)
    ensures r.Keys == prev.Keys + data.Keys
    ensures forall k :: k in data ==> r[k] == data[k]
    ensures forall k :: k in prev && k !in data ==> r[k] == prev[k]
  {
    prev + data
  }

  /** Merging what is already shown changes nothing, and merging the same
      answer twice is merging it once. */
  lemma MergeIdempotent(prev: Settings, data: Settings)
    ensures Merge(Merge(prev, data), data) == Merge(prev, data)
    ensures data.Keys <= prev.Keys && (forall k :: k in data ==> data[k] == prev[k])
            ==> Merge(prev, data) == prev
  {
    var r := Merge(prev, data);
    assert r.Keys == prev.Keys + data.Keys;
  }

  /** `JSON.stringify(settings)` as the backend reads it: every field is a
      JSON string. */
  function Posted(s: Settings): (body: map<string, Backend.JsonValue>)
    ensures body.Keys == s.Keys
    ensures forall k :: k in s ==> body[k] == Backend.JString(s[k])
  {
    map k | k in s :: Backend.JString(s[k])
  }

  /** Saving the form stores every field verbatim and leaves the other
      stored settings alone, so loading again shows the form unchanged. */
  lemma SaveThenLoad(stored: map<string, string>, s: Settings)
    ensures var after := Backend.Upserted(stored, Posted(s));
            && after.Keys == stored.Keys + s.Keys
            && (forall k :: k in s ==> after[k] == s[k])
            && (forall k :: k in stored && k !in s ==> after[k] == stored[k])
            && Merge(s, after) == after
  {
    var after := Backend.Upserted(stored, Posted(s));
    assert forall k :: k in s ==> Backend.PyStr(Posted(s)[k]) == s[k];
    assert Merge(s, after).Keys == after.Keys;
  }

  /** What `GET /api/settings` gave. */
  datatype LoadOutcome = LoadOk(data: Settings) | LoadNotOk | LoadRaised

  /** What `POST /api/settings` gave. */
  datatype SaveOutcome = SaveOk | SaveNotOk | SaveRaised

  const SavedAlert := "Settings saved successfully! \U{1F43E}"
  const FailedAlert := "Failed to save settings."
  const ErrorAlert := "Error saving settings."

  /** The alert shown when the save resolves. */
  function AlertFor(outcome: SaveOutcome): (text: string)
    ensures text == SavedAlert <==> outcome.SaveOk?
    ensures text == FailedAlert <==> outcome.SaveNotOk?
    ensures text == ErrorAlert <==> outcome.SaveRaised?
  {
    match outcome
    case SaveOk => SavedAlert
    case SaveNotOk => FailedAlert
    case SaveRaised => ErrorAlert
  }

  class Portal {
    var settings: Settings
    var isSaving: bool
    var loadError: bool

    constructor ()
      ensures settings == InitialSettings && !isSaving && !loadError
    {
      settings, isSaving, loadError := InitialSettings, false, false;
    }

    /** The mount effect: merge the answer on ok, raise the error banner
        otherwise. */
    method Load(outcome: LoadOutcome)
      modifies this`settings, this`loadError
      ensures outcome.LoadOk? ==> settings == Merge(old(settings), outcome.data) && loadError == old(loadError)
      ensures !outcome.LoadOk? ==> settings == old(settings) && loadError
    {
      match outcome
      case LoadOk(data) =>
        settings := Merge(settings, data);
      case _ =>
        loadError := true;
    }

    /** The clinic name and booking URL inputs. */
    method SetField(key: string, value: string)
      requires key == "clinic_name" || key == "booking_url"
      modifies this`settings
      ensures settings == old(settings)[key := value]
    {
      settings := settings[key := value];
    }

    /** The tone select. */
    method SetTone(tone: string)
      requires tone in ToneOptions
      modifies this`settings
      ensures settings == old(settings)["ai_tone" := tone]
    {
      settings := settings["ai_tone" := tone];
    }

    /** The click on Save, which is disabled while a save is under way:
        the flag goes up and the whole form is posted. */
    method BeginSave() returns (body: map<string, Backend.JsonValue>)
      requires !isSaving
      modifies this`isSaving
      ensures isSaving
      ensures body == Posted(settings)
    {
      isSaving := true;
      body := Posted(settings);
    }

    /** The request resolves: an alert for each outcome, and the flag
        comes down in `finally`. */
    method FinishSave(outcome: SaveOutcome) returns (alertText: string)
      requires isSaving
      modifies this`isSaving
      ensures !isSaving
      ensures alertText == AlertFor(outcome)
    {
      alertText := AlertFor(outcome);
      isSaving := false;
    }

    /** `handleSave` as a whole. */
    method Save(outcome: SaveOutcome) returns (body: map<string, Backend.JsonValue>, alertText: string)
      requires !isSaving
      modifies this`isSaving
      ensures !isSaving && settings == old(settings)
      ensures body == Posted(settings)
      ensures alertText == AlertFor(outcome)
    {
      body := BeginSave();
      alertText := FinishSave(outcome);
    }
  }

  /** A successful save of the form into the database, then a reload of
      the form: every field reads back as it was. */
  method SaveRoundTrip(p: Portal, db: SqliteDb.Database) returns (alertText: string)
    requires !p.isSaving
    modifies p`isSaving, p`settings, p`loadError, db`settings
    ensures db.settings == Backend.Upserted(old(db.settings), Posted(old(p.settings)))
    ensures p.settings == db.settings
    ensures forall k :: k in old(p.settings) ==> p.settings[k] == old(p.settings)[k]
    ensures !p.isSaving && p.loadError == old(p.loadError) && alertText == SavedAlert
  {
    var body;
    body, alertText := p.Save(SaveOk);
    Backend.UpdateSettings(db, body);
    SaveThenLoad(old(db.settings), old(p.settings));
    p.Load(LoadOk(db.settings));
  }
}
