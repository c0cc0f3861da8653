/** The dashboard of frontend/src/App.tsx: the pets list, the reminders
    (newest first), the notification queue and the busy flag of the
    reminder button, with the statistics and clinic details derived from
    them. Each handler is one atomic step whose network results are
    parameters: a function from the request the handler sends to the
    outcome of the `fetch`. */
module Dashboard {
  import opened Wrappers
  import SqliteDb
  import Kapso
  import Backend

  datatype ReminderStatus = Sent | Delivered | Read | Converted
  datatype ReminderType = Vaccination | Checkup | Birthday | Anniversary

  /** A reminder as the dashboard keeps it. `message` is whatever the
      generate route's JSON held under "message", so it may be missing. */
  datatype Reminder = Reminder(id: string, petId: string, petName: string,
                               message: Option<string>, sentAt: string,
                               status: ReminderStatus, kind: ReminderType)

  /** The fields of a pet the dashboard's handlers read. */
  datatype Pet = Pet(id: string, name: string, species: string, ownerName: string,
                     ownerPhone: string, status: string)

  /** The two seeded reminders the dashboard starts with. */
  const InitialReminders: seq<Reminder> := [
    Reminder("r1", "1", "Bingo",
             Some("Bingo is due for rabies vaccine next week. Book at PawCare Clinic: https://book.vet/pawcare"),
             "2024-11-01T10:00:00Z", Sent, Vaccination),
    Reminder("r2", "2", "Fluffy",
             Some("Fluffy's annual checkup is due. WhatsApp us to book: 2348000000000"),
             "2024-11-05T14:30:00Z", Converted, Checkup)
  ]

  // ---- stats -------------------------------------------------------------

  /** `reminders.filter((r) => r.status === "converted").length`. */
  function ConvertedCount(rs: seq<Reminder>): (n: nat)
    ensures n <= |rs|
    ensures n == 0 <== forall i :: 0 <= i < |rs| ==> rs[i].status != Converted
  {
    if rs == [] then 0 else (if rs[0].status == Converted then 1 else 0) + ConvertedCount(rs[1..])
  }

  lemma {:induction false} ConvertedCountAppend(a: seq<Reminder>, b: seq<Reminder>)
    ensures ConvertedCount(a + b) == ConvertedCount(a) + ConvertedCount(b)
    decreases |a|
  {
    if a == [] {
      assert a + b == b;
    } else {
      assert (a + b)[1..] == a[1..] + b;
      ConvertedCountAppend(a[1..], b);
    }
  }

  lemma {:induction false} ConvertedCountAll(rs: seq<Reminder>)
    ensures ConvertedCount(rs) == |rs| <==> forall i :: 0 <= i < |rs| ==> rs[i].status == Converted
    decreases |rs|
  {
    if rs != [] {
      ConvertedCountAll(rs[1..]);
      assert forall i :: 1 <= i < |rs| ==> rs[i] == rs[1..][i - 1];
    }
  }

  const RevenuePerConversion := 5000

  datatype Stats = Stats(totalPets: nat, remindersSent: nat, conversionRate: real,
                         estimatedRevenue: int)

  /** `stats`, with the conversion rate as an exact real. */
  function ComputeStats(pets: seq<Pet>, rs: seq<Reminder>): Stats {
    Stats(|pets|, |rs|,
          if |rs| > 0 then (ConvertedCount(rs) as real / |rs| as real) * 100.0 else 0.0,
          ConvertedCount(rs) * RevenuePerConversion)
  }

  /** The rate is a percentage, 0 with no reminders and 100 exactly when
      every reminder converted; the revenue is 5000 per conversion. */
  lemma StatsMeaning(pets: seq<Pet>, rs: seq<Reminder>)
    ensures var s := ComputeStats(pets, rs);
            && s.totalPets == |pets| && s.remindersSent == |rs|
            && 0.0 <= s.conversionRate <= 100.0
            && (rs == [] ==> s.conversionRate == 0.0 && s.estimatedRevenue == 0)
            && (rs != [] ==> (s.conversionRate == 100.0 <==>
                               forall i :: 0 <= i < |rs| ==> rs[i].status == Converted))
            && s.estimatedRevenue == RevenuePerConversion * ConvertedCount(rs)
            && 0 <= s.estimatedRevenue <= RevenuePerConversion * |rs|
  {
    ConvertedCountAll(rs);
    if |rs| > 0 {
      RatioBounds(ConvertedCount(rs) as real, |rs| as real);
    }
  }

  lemma RatioBounds(c: real, n: real)
    requires 0.0 <= c <= n && n > 0.0
    ensures 0.0 <= c / n <= 1.0
    ensures c / n == 1.0 <==> c == n
  {
    assert (c / n) * n == c;
  }

  /** With the seeded reminders the dashboard shows 2 sent, a 50% rate and
      5000 of revenue. */
  lemma SeedStats(pets: seq<Pet>)
    ensures ComputeStats(pets, InitialReminders)
            == Stats(|pets|, 2, 50.0, 5000)
  {
    assert ConvertedCount(InitialReminders[1..]) == 1;
  }

  /** A sent reminder never changes the revenue. */
  lemma SentReminderKeepsRevenue(pets: seq<Pet>, r: Reminder, rs: seq<Reminder>)
    requires r.status == Sent
    ensures ComputeStats(pets, [r] + rs).estimatedRevenue == ComputeStats(pets, rs).estimatedRevenue
    ensures ComputeStats(pets, [r] + rs).remindersSent == ComputeStats(pets, rs).remindersSent + 1
  {
    assert ([r] + rs)[1..] == rs;
  }

  // ---- clinicInfo and the settings fallbacks -------------------------------

  type Settings = map<string, string>

  /** `settings.key || fallback`: a missing or empty setting falls back. */
  function SettingOr(settings: Settings, key: string, fallback: string): (v: string)
    ensures key in settings && settings[key] != "" ==> v == settings[key]
    ensures key !in settings || settings[key] == "" ==> v == fallback
    ensures fallback != "" ==> v != ""
  {
    if key in settings && settings[key] != "" then settings[key] else fallback
  }

  datatype ClinicInfo = ClinicInfo(name: string, bookingLink: string, whatsappNumber: string)

  const DefaultClinicName := "Kizuna Vet Center"
  const DefaultBookingLink := "https://book.vet/kizuna"
  const DefaultWhatsappNumber := "2348000000000"
  const DefaultTone := "friendly"

  /** `clinicInfo`: each field is its setting unless that is missing or
      empty, and never empty. */
  function ClinicInfoOf(settings: Settings): (info: ClinicInfo)
    ensures info.name == if "clinic_name" in settings && settings["clinic_name"] != ""
                         then settings["clinic_name"] else DefaultClinicName
    ensures info.bookingLink == if "booking_url" in settings && settings["booking_url"] != ""
                                then settings["booking_url"] else DefaultBookingLink
    ensures info.whatsappNumber == if "whatsapp_number" in settings && settings["whatsapp_number"] != ""
                                   then settings["whatsapp_number"] else DefaultWhatsappNumber
    ensures info.name != "" && info.bookingLink != "" && info.whatsappNumber != ""
  {
    ClinicInfo(SettingOr(settings, "clinic_name", DefaultClinicName),
               SettingOr(settings, "booking_url", DefaultBookingLink),
               SettingOr(settings, "whatsapp_number", DefaultWhatsappNumber))
  }

  /** `settings.ai_tone || "friendly"`. */
  function ToneOf(settings: Settings): (tone: string)
    ensures "ai_tone" !in settings || settings["ai_tone"] == "" ==> tone == DefaultTone
    ensures "ai_tone" in settings && settings["ai_tone"] != "" ==> tone == settings["ai_tone"]
  {
    SettingOr(settings, "ai_tone", DefaultTone)
  }

  /** The dashboard's fallbacks are the defaults `init_db` stores: before
      the settings load, and on a new database, the clinic name, booking
      link and tone sent to the generator are the same. */
  lemma FallbacksAgreeWithDatabase()
    ensures var stored := SqliteDb.WithDefaults(map[], SqliteDb.DefaultSettings);
            && ClinicInfoOf(stored).name == ClinicInfoOf(map[]).name == stored["clinic_name"]
            && ClinicInfoOf(stored).bookingLink == ClinicInfoOf(map[]).bookingLink == stored["booking_url"]
            && ToneOf(stored) == ToneOf(map[]) == stored["ai_tone"]
  {
    SqliteDb.FreshSettings();
  }

  // ---- handleSendReminder ----------------------------------------------------

  /** `pet.status === "Overdue" ? "vaccination" : "checkup"`. */
  function ReminderTypeFor(pet: Pet): (t: ReminderType)
    ensures t == Vaccination <==> pet.status == "Overdue"
    ensures t == Checkup <==> pet.status != "Overdue"
  {
    if pet.status == "Overdue" then Vaccination else Checkup
  }

  /** The body of `POST /reminders/generate`. */
  datatype GenerateRequest = GenerateRequest(petName: string, ownerName: string, clinicName: string,
                                             kind: ReminderType, bookingUrl: string, tone: string)

  /** The body of `POST /reminders/send`; a missing message is left out
      of the JSON. */
  datatype SendRequest = SendRequest(to: string, message: Option<string>, petId: string)

  /** The generate call: its JSON's "message" (the status is never
      looked at), or an exception from `fetch` or `json()`. */
  datatype GenerateOutcome = Generated(message: Option<string>) | GenerateRaised

  /** The send call: ok, not ok with the JSON's "detail", or an exception
      from `fetch` or `json()`. */
  datatype SendOutcome = SendOk | SendRejected(detail: Option<string>) | SendRaised

  /** The body of the generate call of App.tsx, built from the pet, the
      clinic info and the tone. */
  function GenerateRequestFor(pet: Pet, settings: Settings): (g: GenerateRequest)
    ensures g.petName == pet.name && g.ownerName == pet.ownerName
    ensures g.kind == ReminderTypeFor(pet)
    ensures g.clinicName != "" && g.bookingUrl != "" && g.tone != ""
    ensures "ai_tone" !in settings ==> g.tone == DefaultTone
    ensures g.clinicName == ClinicInfoOf(settings).name
    ensures g.bookingUrl == ClinicInfoOf(settings).bookingLink
    ensures g.tone == ToneOf(settings)
  {
    var info := ClinicInfoOf(settings);
    GenerateRequest(pet.name, pet.ownerName, info.name, ReminderTypeFor(pet),
                    info.bookingLink, ToneOf(settings))
  }

  function SentNotice(petName: string): string {
    "Reminder sent to " + petName + "'s owner!"
  }

  /** `Failed: ${errData.detail || "Error sending reminder"}`. */
  function FailedNotice(detail: Option<string>): (n: string)
    ensures detail.Some? && detail.value != "" ==> n == "Failed: " + detail.value
    ensures detail.None? || detail.value == "" ==> n == "Failed: Error sending reminder"
  {
    "Failed: " + (if detail.Some? && detail.value != "" then detail.value else "Error sending reminder")
  }

  const ConnectNotice := "Error connecting to reminder service."

  /** What one click on "send reminder" does: the send request, if one is
      made, the reminder prepended, if any, and the notification pushed. */
  datatype SendEffect = SendEffect(sendRequest: Option<SendRequest>, added: Option<Reminder>,
                                   notice: string)

  function SendReminderEffect(pet: Pet, settings: Settings,
                              generate: GenerateRequest -> GenerateOutcome,
                              send: SendRequest -> SendOutcome,
                              reminderId: string, sentAt: string): (e: SendEffect)
    ensures generate(GenerateRequestFor(pet, settings)).GenerateRaised?
            ==> e == SendEffect(None, None, ConnectNotice)
    ensures generate(GenerateRequestFor(pet, settings)).Generated? ==>
              e.sendRequest == Some(SendRequest(pet.ownerPhone,
                                                generate(GenerateRequestFor(pet, settings)).message, pet.id))
    ensures e.added.Some? <==> e.sendRequest.Some? && send(e.sendRequest.value) == SendOk
    ensures e.added.Some? ==>
              && e.added.value == Reminder(reminderId, pet.id, pet.name, e.sendRequest.value.message,
                                           sentAt, Sent, ReminderTypeFor(pet))
              && e.notice == SentNotice(pet.name)
    ensures e.sendRequest.Some? && send(e.sendRequest.value).SendRejected?
            ==> e.notice == FailedNotice(send(e.sendRequest.value).detail)
    ensures e.sendRequest.Some? && send(e.sendRequest.value).SendRaised? ==> e.notice == ConnectNotice
  {
    match generate(GenerateRequestFor(pet, settings))
    case GenerateRaised => SendEffect(None, None, ConnectNotice)
    case Generated(message) =>
      var req := SendRequest(pet.ownerPhone, message, pet.id);
      match send(req)
      case SendOk =>
        SendEffect(Some(req), Some(Reminder(reminderId, pet.id, pet.name, message, sentAt, Sent,
                                            ReminderTypeFor(pet))),
                   SentNotice(pet.name))
      case SendRejected(detail) => SendEffect(Some(req), None, FailedNotice(detail))
      case SendRaised => SendEffect(Some(req), None, ConnectNotice)
  }

  /** The generated text and the reminder type are the ones the reminder
      records: the generate request's type and the stored type agree. */
  lemma SentReminderRecordsRequest(pet: Pet, settings: Settings,
                                   generate: GenerateRequest -> GenerateOutcome,
                                   send: SendRequest -> SendOutcome,
                                   reminderId: string, sentAt: string)
    requires SendReminderEffect(pet, settings, generate, send, reminderId, sentAt).added.Some?
    ensures var e := SendReminderEffect(pet, settings, generate, send, reminderId, sentAt);
            && e.added.value.kind == GenerateRequestFor(pet, settings).kind
            && e.added.value.message == generate(GenerateRequestFor(pet, settings)).message
  {
  }

  // ---- the backend behind the send call ------------------------------------

  /** `POST /api/reminders/send` as the dashboard sees it. A body without
      "message" fails FastAPI's validation with a list under "detail",
      which the template literal renders as "[object Object]". */
  function BackendSend(env: Kapso.Env, post: Kapso.Request -> Kapso.PostOutcome)
    : SendRequest -> SendOutcome
  {
    (r: SendRequest) =>
      if r.message.None? then SendRejected(Some("[object Object]"))
      else match Backend.SendReminderRoute(env, r.to, r.message.value, post)
        case Ok(_) => SendOk
        case HttpError(_, detail) => SendRejected(Some(detail))
  }

  /** With a placeholder WhatsApp key nothing is sent, no reminder is
      added and the owner of the clinic reads the backend's key error. */
  lemma PlaceholderKeyNotice(pet: Pet, settings: Settings,
                             generate: GenerateRequest -> GenerateOutcome,
                             env: Kapso.Env, post: Kapso.Request -> Kapso.PostOutcome,
                             reminderId: string, sentAt: string)
    requires Kapso.IsPlaceholder(Kapso.ReadConfig(env).apiKey)
    requires generate(GenerateRequestFor(pet, settings)).Generated?
    requires generate(GenerateRequestFor(pet, settings)).message.Some?
    ensures var e := SendReminderEffect(pet, settings, generate, BackendSend(env, post), reminderId, sentAt);
            e.added == None && e.notice == "Failed: " + Kapso.ApiKeyError
  {
    var m := generate(GenerateRequestFor(pet, settings)).message.value;
    var req := SendRequest(pet.ownerPhone, Some(m), pet.id);
    assert Kapso.SendWhatsAppReminder(env, pet.ownerPhone, m, post) == Kapso.NotDelivered(Kapso.ApiKeyError);
    assert Backend.SendReminderRoute(env, pet.ownerPhone, m, post) == Backend.HttpError(500, Kapso.ApiKeyError);
    assert BackendSend(env, post)(req) == SendRejected(Some(Kapso.ApiKeyError));
    assert Kapso.ApiKeyError != "";
  }

  // ---- handleDeletePet ----------------------------------------------------------

  /** `prev.filter((p) => p.id !== petId)`. */
  function RemoveById(pets: seq<Pet>, petId: string): (r: seq<Pet>)
    ensures forall p :: p in r <==> p in pets && p.id != petId
    ensures |r| <= |pets|
  {
    if pets == [] then []
    else (if pets[0].id == petId then [] else [pets[0]]) + RemoveById(pets[1..], petId)
  }

  /** Filtering keeps the order: it distributes over concatenation, is the
      identity when no pet has the id and removes nothing more when
      applied again. */
  lemma {:induction false} RemoveByIdAppend(a: seq<Pet>, b: seq<Pet>, petId: string)
    ensures RemoveById(a + b, petId) == RemoveById(a, petId) + RemoveById(b, petId)
    decreases |a|
  {
    if a == [] {
      assert a + b == b;
    } else {
      assert (a + b)[1..] == a[1..] + b;
      RemoveByIdAppend(a[1..], b, petId);
    }
  }

  lemma {:induction false} RemoveByIdAbsent(pets: seq<Pet>, petId: string)
    requires forall i :: 0 <= i < |pets| ==> pets[i].id != petId
    ensures RemoveById(pets, petId) == pets
    decreases |pets|
  {
    if pets != [] {
      RemoveByIdAbsent(pets[1..], petId);
    }
  }

  lemma RemoveByIdIdempotent(pets: seq<Pet>, petId: string)
    ensures RemoveById(RemoveById(pets, petId), petId) == RemoveById(pets, petId)
  {
    var r := RemoveById(pets, petId);
    assert forall i :: 0 <= i < |r| ==> r[i] in r;
    RemoveByIdAbsent(r, petId);
  }

  datatype DeleteOutcome = DeleteOk | DeleteNotOk | DeleteRaised

  /** `handleDeletePet`: the pets afterwards and the notification pushed,
      if any; `outcome` is consulted only after confirmation. */
  function DeleteEffect(pets: seq<Pet>, petId: string, confirmed: bool, outcome: DeleteOutcome)
    : (r: (seq<Pet>, Option<string>))
    ensures !confirmed ==> r == (pets, None)
    ensures confirmed ==> r.1.Some?
    ensures confirmed && outcome == DeleteOk ==> r == (RemoveById(pets, petId), Some("Patient record deleted."))
    ensures confirmed && outcome == DeleteNotOk ==> r == (pets, Some("Failed to delete pet."))
    ensures confirmed && outcome == DeleteRaised ==> r == (pets, Some("Error deleting pet."))
  {
    if !confirmed then (pets, None)
    else match outcome
      case DeleteOk => (RemoveById(pets, petId), Some("Patient record deleted."))
      case DeleteNotOk => (pets, Some("Failed to delete pet."))
      case DeleteRaised => (pets, Some("Error deleting pet."))
  }

  // ---- the notification queue ---------------------------------------------------

  /** `prev.slice(1)`: drops the head; an empty queue stays empty. */
  function DropHead(q: seq<string>): (r: seq<string>)
    ensures q == [] ==> r == []
    ensures q != [] ==> [q[0]] + r == q
  {
    if q == [] then [] else q[1..]
  }

  /** `k` expiries in a row. */
  function ExpireTimes(q: seq<string>, k: nat): seq<string>
    decreases k
  {
    if k == 0 then q else ExpireTimes(DropHead(q), k - 1)
  }

  /** Expiries pop from the head whichever push scheduled them: after as
      many expiries as there were older messages, exactly the newer ones
      are left, and more expiries than messages empty the queue. */
  lemma {:induction false} ExpireTimesDrops(q: seq<string>, k: nat)
    ensures ExpireTimes(q, k) == if k <= |q| then q[k..] else []
    decreases k
  {
    if k > 0 {
      ExpireTimesDrops(DropHead(q), k - 1);
      if q != [] && k <= |q| {
        assert q[1..][k - 1..] == q[k..];
      }
    }
  }

  lemma ExpireOlderFirst(older: seq<string>, newer: seq<string>)
    ensures ExpireTimes(older + newer, |older|) == newer
  {
    ExpireTimesDrops(older + newer, |older|);
    assert (older + newer)[|older|..] == newer;
  }

  /** The fetch of `GET /pets` or `GET /settings`: ok with its JSON, not
      ok, or an exception. */
  datatype FetchOutcome<T> = FetchOk(data: T) | FetchNotOk | FetchRaised

  class App {
    var pets: seq<Pet>
    var reminders: seq<Reminder>
    var notifications: seq<string>
    var isGeneratingMessage: bool
    var settings: Settings

    constructor ()
      ensures pets == [] && reminders == InitialReminders && notifications == []
      ensures !isGeneratingMessage && settings == map[]
    {
      pets, reminders, notifications := [], InitialReminders, [];
      isGeneratingMessage, settings := false, map[];
    }

    /** Appends at the tail; the 4-second timer it starts is the separate
        `ExpireNotification` step. */
    method ShowNotification(msg: string)
      modifies this`notifications
      ensures notifications == old(notifications) + [msg]
    {
      notifications := notifications + [msg];
    }

    /** The timer of some earlier `ShowNotification` fires. */
    method ExpireNotification()
      modifies this`notifications
      ensures notifications == DropHead(old(notifications))
    {
      if notifications != [] {
        notifications := notifications[1..];
      }
    }

    /** `fetchPets`: `setPets(data || [])` on ok, nothing otherwise. */
    method FetchPets(outcome: FetchOutcome<Option<seq<Pet>>>)
      modifies this`pets
      ensures outcome.FetchOk? ==> pets == outcome.data.GetOr([])
      ensures !outcome.FetchOk? ==> pets == old(pets)
    {
      if outcome.FetchOk? {
        pets := outcome.data.GetOr([]);
      }
    }

    /** `fetchSettings`: replaces the settings on ok. */
    method FetchSettings(outcome: FetchOutcome<Settings>)
      modifies this`settings
      ensures outcome.FetchOk? ==> settings == outcome.data
      ensures !outcome.FetchOk? ==> settings == old(settings)
    {
      if outcome.FetchOk? {
        settings := outcome.data;
      }
    }

    /** `handleSendReminder(pet)`. `busyAtGenerate` is the busy flag as
        the generate request leaves. */
    method HandleSendReminder(pet: Pet, generate: GenerateRequest -> GenerateOutcome,
                              send: SendRequest -> SendOutcome,
                              reminderId: string, sentAt: string)
      returns (sendRequest: Option<SendRequest>, busyAtGenerate: bool)
      modifies this`isGeneratingMessage, this`reminders, this`notifications
      ensures var e := SendReminderEffect(pet, settings, generate, send, reminderId, sentAt);
              && sendRequest == e.sendRequest
              && reminders == (if e.added.Some? then [e.added.value] + old(reminders) else old(reminders))
              && notifications == old(notifications) + [e.notice]
      ensures busyAtGenerate && !isGeneratingMessage
    {
      isGeneratingMessage := true;
      busyAtGenerate := isGeneratingMessage;
      sendRequest := None;
      var outcome := generate(GenerateRequestFor(pet, settings));
      if outcome.GenerateRaised? {
        ShowNotification(ConnectNotice);
      } else {
        var message := outcome.message;
        var req := SendRequest(pet.ownerPhone, message, pet.id);
        sendRequest := Some(req);
        var sent := send(req);
        if sent == SendOk {
          var newReminder := Reminder(reminderId, pet.id, pet.name, message, sentAt, Sent,
                                      ReminderTypeFor(pet));
          reminders := [newReminder] + reminders;
          ShowNotification(SentNotice(pet.name));
        } else if sent.SendRejected? {
          ShowNotification(FailedNotice(sent.detail));
        } else {
          ShowNotification(ConnectNotice);
        }
      }
      isGeneratingMessage := false;
    }

    /** `handleDeletePet(petId)`; `confirmed` is the answer to
        `window.confirm`. */
    method HandleDeletePet(petId: string, confirmed: bool, outcome: DeleteOutcome)
      modifies this`pets, this`notifications
      ensures var (newPets, notice) := DeleteEffect(old(pets), petId, confirmed, outcome);
              && pets == newPets
              && notifications == old(notifications) + (if notice.Some? then [notice.value] else [])
    {
      if !confirmed {
        return;
      }
      if outcome == DeleteOk {
        pets := RemoveById(pets, petId);
        ShowNotification("Patient record deleted.");
      } else if outcome == DeleteNotOk {
        ShowNotification("Failed to delete pet.");
      } else {
        ShowNotification("Error deleting pet.");
      }
    }
  }
}
