# Kizuna vet-clinic CRM: a verified model of its bookkeeping core

Kizuna is a customer-relations tool for a veterinary clinic. A React
dashboard lists the clinic's patients (pets and their owners), sends
WhatsApp reminders and shows conversion statistics. A campaign hub turns a
message template into one personalised draft per targeted pet and lets
staff approve or reject each draft. A settings form edits the clinic's
name, booking link and AI tone. A FastAPI backend keeps pets, campaigns,
drafts and settings in SQLite and sends messages through the Kapso
WhatsApp API.

This project models that core in Dafny and proves, for every input, what
the code promises:

- `Text`: the Python string operations the backend relies on:
  `str.strip()`, `str.replace()` and `in`.
- `Kapso` (backend/services/kapso.py): the credential checks, recipient
  cleaning, request construction and reply mapping of
  `send_whatsapp_reminder`. The HTTP client is a function parameter.
- `SqliteDb` (backend/services/sqlite_db.py): the four table schemas with
  their column defaults, and `init_db`. `init_db` creates the absent
  tables, inserts the absent default settings and adds the absent pets
  columns. The class `Database` holds every table, and its methods run
  those statements one by one.
- `Backend` (backend/main.py): `map_pet`; the campaign audience and its
  personalised drafts; the review queue and the `process_draft`
  transitions; the auto-wishes; the settings upsert; and the send-reminder
  route. Each route that writes is a method that modifies the `Database`.
- `Dashboard` (frontend/src/App.tsx): the class `App`, which holds the
  pets, the reminders (newest first), the notification queue, the busy
  flag and the settings. Its handlers are methods. The statistics, clinic
  details and handler effects are functions about which the lemmas speak.
- `CampaignHub` (frontend/src/components/CampaignHub.tsx) and `Gallery`:
  the six templates with their exact wording; the class `Hub` with the
  form, the modal, the loading flag and the per-draft edit map.
- `SettingsPortal` (frontend/src/components/SettingsPortal.tsx): the
  class `Portal` with the form's settings, `isSaving` and `loadError`. It
  also holds the round trip from the form into the backend's settings
  table and back.

The clock, the uuid generator, `window.confirm`, every `fetch`, the AI
generator and the WhatsApp HTTP client are parameters of the members that
use them. A request handler is one atomic step whose network results are
given.

## Model

| member | source | states |
|---|---|---|
| Text.Strip | backend/services/kapso.py:17-19 | `s.strip()` is a contiguous part of `s` with only whitespace cut on both sides, and it neither starts nor ends with whitespace |
| Text.StripIdentity | backend/services/kapso.py:19 | stripping a text with no whitespace at either end returns it unchanged (so "v21.0" stays "v21.0") |
| Text.StripIdempotent | backend/services/kapso.py:17-19 | stripping twice is stripping once |
| Text.Contains | backend/services/kapso.py:25 | Python's `p in s`, scanned position by position; its meaning is stated by `Text.ContainsIff` |
| Text.ReplaceAll | backend/main.py:241 | Python's `s.replace(pat, rep)`: leftmost, non-overlapping, with the inserted text not scanned again; its behaviour is stated by the `ReplaceAll…` lemmas below |
| Text.StripKeepsAbsent | backend/services/kapso.py:33 | stripping never introduces a character |
| Text.ContainsIff | backend/services/kapso.py:25 | Python's `p in s` holds exactly when `p` occurs at some index of `s` |
| Text.ReplaceAllAbsent | backend/main.py:241 | `s.replace(pat, rep)` leaves `s` unchanged when `pat` does not occur in it |
| Text.ReplaceAllSame | backend/main.py:241 | replacing a pattern by itself changes nothing |
| Text.ReplaceAllSplice | backend/main.py:241 | a leftmost occurrence preceded by no first character of the pattern is replaced, the prefix is kept, and the scan resumes after it |
| Text.NoLeadCharKeeps | backend/main.py:241 | a text without the pattern's first character is left unchanged by the replacement |
| Text.ContainsSkipPrefix | backend/main.py:241 | a prefix free of the pattern's first character cannot change whether the pattern occurs |
| Text.ReplaceAllChars | backend/services/kapso.py:33 | every character of a replacement's result comes from the input or from the replacement text |
| Text.DeleteCharRemovesAll | backend/services/kapso.py:33 | deleting a one-character pattern leaves no occurrence of that character |
| Kapso.IsPlaceholder | backend/services/kapso.py:25 | a credential is a placeholder exactly when it is empty or contains "your_" or "id_here" |
| Kapso.ReadConfig | backend/services/kapso.py:17-19 | the three variables, each stripped, with only the version defaulting to "v21.0"; stated by `Kapso.DefaultVersionUrl` and `Kapso.Prepare` |
| Kapso.CleanRecipient | backend/services/kapso.py:33 | every "+" deleted, then every "whatsapp:", then stripped; stated by the `Kapso.CleanRecipient…` lemmas |
| Kapso.MessagesUrl | backend/services/kapso.py:35 | the URL is the API base, then the version, "/", the phone id and "/messages", each at its place |
| Kapso.BuildRequest | backend/services/kapso.py:35-48 | the POST goes to the versioned URL with the Bearer key as JSON, a whatsapp text message to the cleaned recipient carrying the message unchanged |
| Kapso.Prepare | backend/services/kapso.py:17-48 | a placeholder API key fails with the key error before the phone id is looked at; otherwise a placeholder phone id fails with the phone error; the request carries the cleaned number, the unchanged message, the Bearer key and the versioned URL, and is exactly the built JSON POST of the configuration |
| Kapso.MapOutcome | backend/services/kapso.py:50-62 | delivered exactly on HTTP 200 with a readable message list; the sid is the first message id; another status gives the response text; an exception or an unparsable body gives its text; an empty list gives the IndexError text |
| Kapso.SendWhatsAppReminder | backend/services/kapso.py:13-62 | a placeholder key or phone id gives its fixed error; delivery implies that both credential checks passed |
| Kapso.PlaceholderNeverPosts | backend/services/kapso.py:27-30 | with a placeholder credential the result is the same under any two HTTP clients: the network is never reached |
| Kapso.ValidCredentialsPostOnce | backend/services/kapso.py:35-59 | with valid credentials the result is the mapping of the client's answer to the one prepared request |
| Kapso.DefaultVersionUrl | backend/services/kapso.py:19-35 | without KAPSO_VERSION the URL is `https://api.kapso.ai/meta/whatsapp/v21.0/<phone id>/messages` |
| Kapso.CleanRecipientHasNoPlus | backend/services/kapso.py:33 | a cleaned recipient never holds a "+" |
| Kapso.CleanRecipientDigits | backend/services/kapso.py:33 | a bare digit string is kept as it is |
| Kapso.CleanRecipientPlus | backend/services/kapso.py:33 | "+digits" cleans to the digits |
| Kapso.CleanRecipientPrefixed | backend/services/kapso.py:33 | "whatsapp:digits" cleans to the digits |
| Kapso.CleanRecipientPrefixedPlus | backend/services/kapso.py:33 | "whatsapp:+digits" cleans to the digits |
| Kapso.CleanPrefixedWith | backend/services/kapso.py:33 | any "+"-free prefix in front of digits is deleted by the second replacement |
| Kapso.CleanPrefixedPlusWith | backend/services/kapso.py:33 | the same with a "+" between the prefix and the digits |
| SqliteDb.ColumnNames | backend/services/sqlite_db.py:88-89 | `PRAGMA table_info` lists the name of every column, in order |
| SqliteDb.DefaultOf | backend/services/sqlite_db.py:18-73 | the DEFAULT of the first column with that name, as the table lists them; a name that is not a column has no default |
| SqliteDb.SchemaDefaults | backend/services/sqlite_db.py:30-61 | pets default to status 'Healthy', campaigns to 'draft' with `sent_count` 0, drafts to 'pending_review' |
| SqliteDb.CreateIfAbsentKeeps | backend/services/sqlite_db.py:18-73 | CREATE TABLE IF NOT EXISTS adds the one table name and alters no existing table |
| SqliteDb.CreatedTables | backend/services/sqlite_db.py:18-73 | after the four statements all four tables exist, no other name is added and every existing table is untouched |
| SqliteDb.CreatedTablesNoop | backend/services/sqlite_db.py:18-73 | once the four tables exist the statements change nothing |
| SqliteDb.InsertFromSpec | backend/services/sqlite_db.py:84-85 | INSERT OR IGNORE of the pairs in order adds exactly their keys, never overwrites a stored value, and for a repeated key the first pair wins |
| SqliteDb.InsertFrom | backend/services/sqlite_db.py:84-85 | the INSERT OR IGNORE loop from one pair on; stated by `SqliteDb.InsertFromSpec` and `SqliteDb.InsertPresent` |
| SqliteDb.WithDefaults | backend/services/sqlite_db.py:76-85 | the settings after the default inserts: the stored keys plus the default keys, stored values kept, new keys given their default |
| SqliteDb.InsertPresent | backend/services/sqlite_db.py:84-85 | when every default key is present the inserts change nothing |
| SqliteDb.WithDefaultsIdempotent | backend/services/sqlite_db.py:76-85 | inserting the defaults twice is inserting them once |
| SqliteDb.DefaultKeysPresent | backend/services/sqlite_db.py:76-85 | after `init_db` the six default keys exist whatever was stored, and no other key is added |
| SqliteDb.FreshSettings | backend/services/sqlite_db.py:76-85 | a new database holds exactly the six defaults with their values |
| SqliteDb.MissingFromMembers | backend/services/sqlite_db.py:101-102 | the scan from an index picks exactly the listed columns from there on whose name is absent |
| SqliteDb.MissingColumnsMembers | backend/services/sqlite_db.py:91-102 | a column is added exactly when it is listed and its name is absent from the pets table |
| SqliteDb.NothingMissing | backend/services/sqlite_db.py:101-102 | when every listed name is present nothing is added |
| SqliteDb.AddColumnsToRows | backend/services/sqlite_db.py:104 | ALTER TABLE ADD COLUMN keeps the number of rows |
| SqliteDb.AddColumnsCons | backend/services/sqlite_db.py:101-104 | adding `[c] + rest` is adding `c`, then `rest` |
| SqliteDb.Migrated | backend/services/sqlite_db.py:88-104 | the columns plus the listed ones they lack, in list order; stated by `SqliteDb.MigratedComplete` and `SqliteDb.MigratedIdempotent` |
| SqliteDb.MigratedRows | backend/services/sqlite_db.py:101-104 | the rows with each added column filled with its default; stated by `SqliteDb.AddColumnsToRows` and `SqliteDb.MigrateStep` |
| SqliteDb.MigratedComplete | backend/services/sqlite_db.py:88-104 | the migration keeps the present columns as a prefix, and afterwards every listed column is present |
| SqliteDb.MigrationComplete | backend/services/sqlite_db.py:91-104 | after `init_db` the pets table has every one of the seven migration columns |
| SqliteDb.MigratedIdempotent | backend/services/sqlite_db.py:91-104 | after one migration nothing is missing, so a second one adds nothing |
| SqliteDb.InitDbIdempotent | backend/services/sqlite_db.py:13-107 | running `init_db` twice leaves the same schema, settings and pets rows as running it once |
| SqliteDb.InitializedTables | backend/services/sqlite_db.py:13-104 | the schema after `init_db`: the tables created, then pets migrated; stated by `SqliteDb.InitTablesIdempotent` and `SqliteDb.InitDbKeepsTables` |
| SqliteDb.InitTablesIdempotent | backend/services/sqlite_db.py:18-104 | the schema after two runs equals the schema after one, and the second run finds no column missing |
| SqliteDb.InitDbKeepsTables | backend/services/sqlite_db.py:18-73 | an existing table other than pets is never altered |
| SqliteDb.MigrateStep | backend/services/sqlite_db.py:101-104 | one ALTER TABLE step adds the head of what is still missing, to the schema and to the rows |
| SqliteDb.Database.Open | backend/services/sqlite_db.py:8-11 | the database as found on disk |
| SqliteDb.Database.CreateTableIfNotExists | backend/services/sqlite_db.py:18-73 | the table is created only when absent |
| SqliteDb.Database.InsertOrIgnoreAll | backend/services/sqlite_db.py:84-85 | the loop of INSERT OR IGNORE leaves the settings given by `WithDefaults` |
| SqliteDb.Database.CreateTables | backend/services/sqlite_db.py:18-73 | the four CREATE statements leave the schema given by `CreatedTables` |
| SqliteDb.Database.AddMissingColumns | backend/services/sqlite_db.py:88-104 | the loop over the listed columns alters only the pets table, into `Migrated` of its snapshot, and fills each added column of every row with its default |
| SqliteDb.Database.InitDbWith | backend/services/sqlite_db.py:13-107 | `init_db`'s three phases in order: the tables created, then the defaults inserted, then the pets columns migrated |
| SqliteDb.Database.InitDb | backend/services/sqlite_db.py:13-107 | `init_db` with the file's default settings and migration columns |
| Backend.MapPet | backend/main.py:145-163 | the id, name, species, owner name and owner phone are copied under the frontend's names; a truthy next vaccination date is kept and a missing or falsy one becomes today; the birthday and the other three dates are passed through, NULL when absent |
| Backend.MapPetRoundTrip | backend/main.py:145-163 | mapping the row of a record gives the record back, except that a falsy next vaccination date becomes today |
| Backend.MapPetDefaults | backend/main.py:150-157 | breed, sex, color, age and weight become "Unknown" and status "Healthy" only when the key is absent; a present key, even NULL, is passed through |
| Backend.GetPets | backend/main.py:171-176 | one record per row, in order, each the `map_pet` of its row, so the renames, defaults and date fallback hold for the route |
| Backend.Audience | backend/main.py:218-235 | a pet is selected exactly when it passes the target's filter, and never more pets than the table holds |
| Backend.AudienceOfOtherTarget | backend/main.py:218-235 | a target that is none of the four named ones selects every pet in table order |
| Backend.AudienceOfAppend | backend/main.py:235 | the audience is the subsequence of matching pets in table order |
| Backend.InAudience | backend/main.py:221-233 | the WHERE clause of each target: species Dog, species Cat, status Overdue, a next vaccination date in the current month, or none; stated through `Backend.Audience` |
| Backend.Personalize | backend/main.py:241 | `{owner_name}` replaced first, then `{pet_name}`; stated by `Backend.PersonalizeFills` and `Backend.PersonalizeUntagged` |
| Backend.NoBraceConcat | backend/main.py:241 | joining two brace-free texts gives a brace-free text |
| Backend.OwnerTagAbsent | backend/main.py:241 | `{owner_name}` cannot occur in a text whose only brace opens `{pet_name}` |
| Backend.FillOwner | backend/main.py:241 | the first replacement fills the single `{owner_name}` and leaves `{pet_name}` in place |
| Backend.FillPet | backend/main.py:241 | the second replacement fills the single `{pet_name}` |
| Backend.PersonalizeFills | backend/main.py:241 | a message with one `{owner_name}` and then one `{pet_name}` gets the owner and the pet spliced in and the rest copied |
| Backend.PersonalizeUntagged | backend/main.py:241 | a message without braces is sent unchanged to every pet |
| Backend.CampaignRequestOf | backend/main.py:74-77 | the target defaults to "All Patients" |
| Backend.NewCampaign | backend/main.py:211-215 | the campaign is stored under the given id with the request's name, message and target, 'active', and `sent_count` takes the schema default 0 |
| Backend.CampaignDraft | backend/main.py:238-246 | a 'campaign' draft, 'pending_review', for the pet's id, under the given draft id, carrying the message personalised with that pet's owner and name |
| Backend.CampaignDrafts | backend/main.py:238-246 | exactly one such draft per targeted pet, in order, each with the message personalised for its pet |
| Backend.CampaignDraftsSnoc | backend/main.py:238-246 | the drafts of one more pet are the previous drafts plus that pet's draft |
| Backend.InsertCampaignDrafts | backend/main.py:238-246 | the loop appends exactly `CampaignDrafts` of the targets to the drafts table |
| Backend.CreateCampaign | backend/main.py:206-250 | one campaigns row, then the drafts of the target's audience; `drafts_created` is the audience's size |
| Backend.ViewsOf | backend/main.py:276-283 | the joined rows of a draft are those with a pet whose id is its `pet_id` |
| Backend.PendingViews | backend/main.py:276-283 | the joined rows of the pending drafts, in table order; stated by `Backend.PendingViewsMembers` |
| Backend.PendingViewsMembers | backend/main.py:273-285 | a row is in the review queue exactly when it joins a 'pending_review' draft with an existing pet of that id |
| Backend.ChosenMessage | backend/main.py:296 | the edited message when it is non-empty, the stored draft otherwise |
| Backend.PetWithId | backend/main.py:291-294 | the pet found has the id and is the first such in table order; when none is found no pet has it |
| Backend.FindForSend | backend/main.py:291-295 | the draft found has the id and joins an existing pet; when none is found no draft of that id has a pet |
| Backend.SetStatus | backend/main.py:297-299 | exactly the drafts with that id get the new status, and every other draft is unchanged |
| Backend.ProcessedDrafts | backend/main.py:290-299 | the drafts table keeps its size, and an approval whose id joins no pet leaves it unchanged; the transitions are stated by `Backend.ProcessedTransitions` |
| Backend.Outgoing | backend/main.py:290-296 | a message goes out exactly when an approved id joins a pet, to that pet's owner phone with the chosen text |
| Backend.ProcessedTransitions | backend/main.py:287-302 | an approved draft with a pet becomes 'sent'; an approved draft without one is unchanged; a rejected one becomes 'rejected'; the other drafts are unchanged |
| Backend.ProcessedLeavesQueue | backend/main.py:273-302 | a processed draft leaves the review queue, unless it was an approval that found no pet |
| Backend.ProcessDraft | backend/main.py:287-302 | the drafts table becomes `ProcessedDrafts`; a message goes out, to the owner's phone with the chosen text, exactly when an approved id joins a pet, and its result does not affect the status |
| Backend.WishMessage | backend/main.py:318 | the fixed wellness text around the owner and pet names; stated by `Backend.WishNamesOwnerAndPet` |
| Backend.WishNamesOwnerAndPet | backend/main.py:318 | the wellness message greets the owner and names the pet at fixed positions |
| Backend.WishDraft | backend/main.py:317-323 | a 'wellness_wish' draft, 'pending_review', for the pet's id, carrying the wellness message for that pet's owner and name |
| Backend.WishDrafts | backend/main.py:316-323 | one such draft per pet, in table order, each with the wellness message for its pet |
| Backend.WishDraftsSnoc | backend/main.py:316-323 | the drafts of one more pet are the previous ones plus that pet's draft |
| Backend.GenerateAutoWishes | backend/main.py:309-328 | the loop appends exactly `WishDrafts` of all pets, and the count is the number of pets |
| Backend.PendingCount | backend/main.py:280 | the number of pending drafts never exceeds the number of drafts |
| Backend.PendingCountAppend | backend/main.py:280 | the pending count of two tables adds up |
| Backend.AllPendingCount | backend/main.py:322 | a table of new drafts is pending throughout |
| Backend.AutoWishesNotIdempotent | backend/main.py:309-328 | each run adds one pending draft per pet whatever is queued, so two runs queue every pet twice |
| Backend.NatToDecimal | backend/main.py:343 | `str(n)` is a non-empty string of digits without a leading zero |
| Backend.DecimalRoundTrip | backend/main.py:343 | `str(n)` reads back as `n` |
| Backend.PyStr | backend/main.py:343 | `str(value)`: a string is stored verbatim, and an integer as its decimal form, with a "-" before a negative one, which reads back as that integer; booleans become "True" or "False" and null becomes "None" |
| Backend.Upserted | backend/main.py:340-344 | every key of the body is stored as `str(value)`, and every other stored key is untouched |
| Backend.UpsertedIdempotent | backend/main.py:337-347 | posting the same body twice stores what posting it once stores |
| Backend.UpdateSettings | backend/main.py:337-347 | the loop of INSERT OR REPLACE leaves the settings given by `Upserted` |
| Backend.SendReminderRoute | backend/main.py:262-269 | answers success with the sid exactly when the message was delivered, and HTTP 500 with the error otherwise |
| Dashboard.ConvertedCount | frontend/src/App.tsx:76-81 | the number of converted reminders is at most the number of reminders, and 0 when none converted |
| Dashboard.ConvertedCountAppend | frontend/src/App.tsx:76-81 | the count of two lists adds up |
| Dashboard.ConvertedCountAll | frontend/src/App.tsx:76-81 | the count equals the length exactly when every reminder converted |
| Dashboard.ComputeStats | frontend/src/App.tsx:71-82 | the `stats` expression; stated by `Dashboard.StatsMeaning`, `Dashboard.SeedStats` and `Dashboard.SentReminderKeepsRevenue` |
| Dashboard.StatsMeaning | frontend/src/App.tsx:71-82 | the totals are the list lengths; the rate is 0 with no reminders, lies between 0 and 100, and is 100 exactly when every reminder converted; the revenue is exactly 5000 per conversion, so between 0 and 5000 per reminder |
| Dashboard.RatioBounds | frontend/src/App.tsx:74-79 | a count over its total is a fraction between 0 and 1, and 1 exactly when they are equal |
| Dashboard.SeedStats | frontend/src/constants.tsx:47-66 | with the two seeded reminders the dashboard shows 2 sent, a 50% rate and 5000 of revenue |
| Dashboard.SentReminderKeepsRevenue | frontend/src/App.tsx:80-81 | prepending a sent reminder adds one to the sent count and leaves the revenue unchanged |
| Dashboard.SettingOr | frontend/src/App.tsx:65-69 | a missing or empty setting falls back, and a non-empty one is used |
| Dashboard.ClinicInfoOf | frontend/src/App.tsx:65-69 | each field is its setting when that is present and non-empty, and its default otherwise, so no field is ever empty |
| Dashboard.ToneOf | frontend/src/App.tsx:136 | the tone is the setting when non-empty and "friendly" otherwise |
| Dashboard.FallbacksAgreeWithDatabase | frontend/src/App.tsx:65-69 | the dashboard's fallbacks for the clinic name, booking link and tone are the values a new database stores |
| Dashboard.ReminderTypeFor | frontend/src/App.tsx:134-159 | the reminder is a vaccination exactly when the pet is Overdue, and a checkup otherwise |
| Dashboard.GenerateRequestFor | frontend/src/App.tsx:130-137 | the request names the pet and owner, carries the classified type, and sends the clinic name and booking link of the clinic info and the tone of the settings, so never an empty one |
| Dashboard.FailedNotice | frontend/src/App.tsx:165 | "Failed: " and the detail, or the fallback text when there is no detail |
| Dashboard.SendReminderEffect | frontend/src/App.tsx:124-173 | an exception from generate sends nothing; otherwise the send carries the owner's phone and the generated text (ok status unchecked); exactly an ok send adds the reminder, which has status sent, the pet's id and name and the generated text; each outcome gives its notice |
| Dashboard.SentReminderRecordsRequest | frontend/src/App.tsx:134-159 | the stored reminder's type and message are the ones sent to the generator and returned by it |
| Dashboard.PlaceholderKeyNotice | frontend/src/App.tsx:163-165 | with a placeholder WhatsApp key no reminder is added and the notice shows the backend's key error |
| Dashboard.BackendSend | backend/main.py:262-269 | the send route as the dashboard sees it, with a body lacking the message rejected by validation; stated by `Dashboard.PlaceholderKeyNotice` |
| Dashboard.RemoveById | frontend/src/App.tsx:221 | exactly the pets with another id remain |
| Dashboard.RemoveByIdAppend | frontend/src/App.tsx:221 | filtering distributes over concatenation, so order is kept |
| Dashboard.RemoveByIdAbsent | frontend/src/App.tsx:221 | filtering an id no pet has changes nothing |
| Dashboard.RemoveByIdIdempotent | frontend/src/App.tsx:221 | filtering twice is filtering once |
| Dashboard.DeleteEffect | frontend/src/App.tsx:211-230 | without confirmation nothing changes and no notice is shown; an ok reply removes the pet; a failure or exception keeps the pets; each outcome gives its notice |
| Dashboard.DropHead | frontend/src/App.tsx:234 | an expiry removes the head, and an empty queue stays empty |
| Dashboard.ExpireTimes | frontend/src/App.tsx:234 | `k` timer expiries in a row; stated by `Dashboard.ExpireTimesDrops` and `Dashboard.ExpireOlderFirst` |
| Dashboard.ExpireTimesDrops | frontend/src/App.tsx:232-235 | `k` expiries leave the queue without its first `k` messages |
| Dashboard.ExpireOlderFirst | frontend/src/App.tsx:232-235 | after as many expiries as older messages, exactly the newer ones are left, whichever push scheduled the timers |
| Dashboard.App.constructor | frontend/src/App.tsx:40-63 | no pets, the seeded reminders, no notifications, not busy, no settings |
| Dashboard.App.ShowNotification | frontend/src/App.tsx:232-233 | the message is appended at the tail |
| Dashboard.App.ExpireNotification | frontend/src/App.tsx:234 | one timer fires: the queue loses its head |
| Dashboard.App.FetchPets | frontend/src/App.tsx:84-96 | an ok reply replaces the pets (`data` or the empty list); a failure or exception keeps them |
| Dashboard.App.FetchSettings | frontend/src/App.tsx:98-108 | an ok reply replaces the settings; otherwise they are kept |
| Dashboard.App.HandleSendReminder | frontend/src/App.tsx:124-173 | the new state is its `SendReminderEffect`: the reminder prepended before the unchanged previous list, exactly one notice appended; the busy flag is up as the generate request leaves and down on every path |
| Dashboard.App.HandleDeletePet | frontend/src/App.tsx:211-230 | the new pets and notices are its `DeleteEffect` |
| CampaignHub.AudiencesAreBackendTargets | frontend/src/components/CampaignHub.tsx:7-74 | the select offers exactly the five audiences the backend builds a query for, and every template targets one of them |
| CampaignHub.NoBraceOf | frontend/src/components/CampaignHub.tsx:7-74 | a text without "{" is brace-free |
| CampaignHub.PersonalizeWording | backend/main.py:241 | personalising a brace-free wording splices the names into its gaps; a wording that names only the pet never receives the owner |
| CampaignHub.FilledNoBrace | frontend/src/components/CampaignHub.tsx:7-74 | with brace-free names no placeholder is left in a filled wording |
| CampaignHub.GalleryBraceFree | frontend/src/components/CampaignHub.tsx:7-74 | no template's wording holds a brace outside its placeholders |
| CampaignHub.TemplatePersonalized | frontend/src/components/CampaignHub.tsx:7-74 | a campaign from an unedited template sends each owner the wording with their names filled in and no placeholder left |
| CampaignHub.DisplayedText | frontend/src/components/CampaignHub.tsx:320 | the card shows the local edit or the stored draft, and is empty only when the stored draft is |
| CampaignHub.SubmittedMessage | frontend/src/components/CampaignHub.tsx:163 | an unedited draft submits the empty message |
| CampaignHub.ActionFor | frontend/src/components/CampaignHub.tsx:163 | the body names the draft, the decision and always a message |
| CampaignHub.SentIsDisplayed | frontend/src/components/CampaignHub.tsx:163 | the text the backend sends on approval is exactly the text the card shows |
| CampaignHub.EditsAreLocal | frontend/src/components/CampaignHub.tsx:320-321 | clearing a card shows the stored draft again, and editing one card changes no other card |
| CampaignHub.Hub.constructor | frontend/src/components/CampaignHub.tsx:87-93 | empty lists, loading, the modal closed, no template, the empty form and no edits |
| CampaignHub.Hub.FetchDrafts | frontend/src/components/CampaignHub.tsx:96-104 | whatever JSON arrives replaces the drafts; an exception keeps them |
| CampaignHub.Hub.FetchCampaigns | frontend/src/components/CampaignHub.tsx:106-116 | the reply replaces the campaigns, and loading ends on success and on failure |
| CampaignHub.Hub.Mount | frontend/src/components/CampaignHub.tsx:118-121 | both lists are fetched and loading ends |
| CampaignHub.Hub.SelectTemplate | frontend/src/components/CampaignHub.tsx:123-131 | the form takes the template's name, message and target, the template is recorded and the modal opens |
| CampaignHub.Hub.CreateCustom | frontend/src/components/CampaignHub.tsx:133-137 | the form is reset to an empty name and message for all patients, no template, the modal open |
| CampaignHub.Hub.CloseModal | frontend/src/components/CampaignHub.tsx:415-420 | the modal closes and the chosen template is cleared, while the form keeps what was typed |
| CampaignHub.Hub.SetName | frontend/src/components/CampaignHub.tsx:454-455 | only the form's name changes |
| CampaignHub.Hub.SetMessage | frontend/src/components/CampaignHub.tsx:469-470 | only the form's message changes |
| CampaignHub.Hub.SetTarget | frontend/src/components/CampaignHub.tsx:482-489 | only the target changes, to one of the five options |
| CampaignHub.Hub.CreateCampaign | frontend/src/components/CampaignHub.tsx:139-156 | the form is posted with a valid target; an ok reply closes the modal, resets the form, clears the template and refreshes the campaigns; a non-ok reply or an exception changes nothing |
| CampaignHub.Hub.EditDraftMessage | frontend/src/components/CampaignHub.tsx:321 | only that draft's entry of the edit map changes, and the card then shows the typed text |
| CampaignHub.Hub.ProcessDraft | frontend/src/components/CampaignHub.tsx:158-169 | the posted action is `ActionFor` the edit map; the queue is refreshed after any reply and not after an exception |
| CampaignHub.Hub.GenerateAutoWishes | frontend/src/components/CampaignHub.tsx:171-174 | an exception escapes before the refresh; otherwise the queue is refreshed |
| SettingsPortal.InitialSettingsShape | frontend/src/components/SettingsPortal.tsx:7-14 | the form starts with the six keys the database is seeded with, all empty except the tone, which is 'friendly' |
| SettingsPortal.Merge | frontend/src/components/SettingsPortal.tsx:24 | keys of the response override, and every other key keeps its prior value |
| SettingsPortal.MergeIdempotent | frontend/src/components/SettingsPortal.tsx:24 | merging the same answer twice is merging it once, and merging what is shown changes nothing |
| SettingsPortal.Posted | frontend/src/components/SettingsPortal.tsx:41 | the whole form is posted, every field as a JSON string |
| SettingsPortal.SaveThenLoad | backend/main.py:340-344 | after a save every form field is stored verbatim, the other stored settings are kept, and loading again shows the form unchanged |
| SettingsPortal.AlertFor | frontend/src/components/SettingsPortal.tsx:43-49 | the success alert exactly on an ok reply, the failure alert exactly on a non-ok reply, the error alert exactly on an exception |
| SettingsPortal.Portal.constructor | frontend/src/components/SettingsPortal.tsx:7-16 | the initial settings, not saving, no load error |
| SettingsPortal.Portal.Load | frontend/src/components/SettingsPortal.tsx:18-33 | an ok load merges the response and keeps the error flag; a non-ok load or an exception raises the flag and keeps the settings |
| SettingsPortal.Portal.SetField | frontend/src/components/SettingsPortal.tsx:97-111 | only the edited field changes |
| SettingsPortal.Portal.SetTone | frontend/src/components/SettingsPortal.tsx:135-140 | only the tone changes, to one of the three options |
| SettingsPortal.Portal.BeginSave | frontend/src/components/SettingsPortal.tsx:36-42 | a save starts only when none is under way; the flag goes up and the whole form is posted |
| SettingsPortal.Portal.FinishSave | frontend/src/components/SettingsPortal.tsx:43-51 | each outcome gives its alert, and the flag goes down on every outcome |
| SettingsPortal.Portal.Save | frontend/src/components/SettingsPortal.tsx:35-53 | the whole form is posted, the settings are unchanged, the outcome's alert is shown and the flag is down afterwards |
| SettingsPortal.SaveRoundTrip | frontend/src/components/SettingsPortal.tsx:18-53 | a successful save then reload stores the upsert of the form, shows exactly the stored settings and reads every field back as it was |

## Left out

- `import_excel`, `create_pet`, `delete_pet`, `list_campaigns`, the health check, the insights route and the AI reminder generator (backend/main.py) are not part of this model. The dashboard sees them only through their outcomes.
- `handleCreatePet` and the add-pet form of App.tsx are not modelled. Only the pets list they refresh is.
- The Telegram bot and the Gemini services are not part of this model. The generated text is an opaque input.
- Backend.GetPets, Backend.PendingViews: `ORDER BY created_at DESC` is not modelled; these lists come back in table order, as timestamps are not kept.
- The uuid generator, `datetime.now()`, `Date.now()` and `new Date()` are parameters. Ids are not modelled as unique.
- The 4-second notification timer is the explicit step `ExpireNotification`.
- Overlapping asynchronous handlers and React's stale closures are not modelled. Each handler is one atomic step.
- Logging (`print`, `console.error`) is left out, and so is the display formatting of the rate (`toFixed`). The rate is an exact real, not a float.
- Backend.Audience: `LIKE 'YYYY-MM%'` is modelled as a prefix test on text values, without SQLite's case folding or wildcard characters inside the month.
- Backend.MapPet: a row missing one of the subscripted keys raises KeyError in Python. The model requires the five keys instead, which every row read after `init_db` has.
- Backend.CreateCampaign, Backend.GenerateAutoWishes and Backend.ProcessDraft require text in the pets' id, name, owner name and owner phone, which every insert path writes. A NULL there is not modelled.
- Backend.PyStr covers the JSON values a client may send as strings, integers, booleans and null. Floats, lists and objects are not modelled.
- `get_settings` is not a separate member: the settings table is already the key-to-value map it returns.
- JSON and HTTP framing is not modelled: reply dictionaries, headers and the non-ok reply body of the drafts fetch.
- The icons, colours and descriptions of the campaign templates are not modelled. The template emoji are kept as the code points the file's text holds, which are UTF-8 bytes read as Windows-1252.
- CampaignHub.Hub.ProcessDraft keeps the local edit of a processed draft, as the source does. Nothing removes entries from the edit map.
- SettingsPortal: the form has no inputs for `kapso_api_key`, `kapso_phone_id` and `telegram_token`. Only the clinic name, booking URL and tone are editable, and the other three keys are posted as loaded.
- CampaignHub.Hub.CreateCampaign requires a non-empty name and message, as the form's `required` inputs enforce in the browser.
- SettingsPortal.Portal.BeginSave and SettingsPortal.Portal.Save require that no save is under way, as the disabled button enforces.
