/** The FastAPI routes of backend/main.py that keep the clinic's books:
    the row-to-record mapping of `map_pet`, the campaign audience and its
    personalised drafts, the review queue of drafts and its status
    transitions, the auto-wishes and the settings upsert. Every route
    works on one `SqliteDb.Database`; the uuid generator, the clock and
    the WhatsApp client are parameters. */
module Backend {
  import opened Wrappers
  import opened Text
  import opened SqliteDb
  import Kapso

  // ---- map_pet ---------------------------------------------------------

  /** `p.get(key, default)`. */
  function Get(p: Row, key: string, default: SqlValue): SqlValue {
    if key in p then p[key] else default
  }

  /** Python truthiness of a stored value, as `or` reads it. */
  predicate Truthy(v: SqlValue) {
    match v
    case Null => false
    case Text(s) => s != ""
    case Integer(i) => i != 0
  }

  /** The JSON record `map_pet` returns for one pets row. */
  datatype PetRecord = PetRecord(
    id: SqlValue, name: SqlValue, species: SqlValue, breed: SqlValue,
    sex: SqlValue, color: SqlValue, age: SqlValue, weight: SqlValue,
    ownerName: SqlValue, ownerPhone: SqlValue, status: SqlValue,
    birthday: SqlValue, lastVaccinationDate: SqlValue,
    nextVaccinationDate: SqlValue, lastDewormingDate: SqlValue,
    lastCheckupDate: SqlValue)

  /** The keys `map_pet` subscripts; a row without one raises KeyError. */
  predicate HasRequiredPetKeys(p: Row) {
    "id" in p && "name" in p && "species" in p && "owner_name" in p && "owner_phone" in p
  }

  const Unknown := Text("Unknown")

  /** `map_pet(p)`, with `today` the value of
      `datetime.now().strftime("%Y-%m-%d")`. */
  function MapPet(p: Row, today: string): (r: PetRecord)
    requires HasRequiredPetKeys(p)
    ensures r.id == p["id"] && r.name == p["name"] && r.species == p["species"]
    ensures r.ownerName == p["owner_name"] && r.ownerPhone == p["owner_phone"]
    ensures r.nextVaccinationDate == p["next_vaccination_date"]
            <== "next_vaccination_date" in p && Truthy(p["next_vaccination_date"])
    ensures today != "" ==> Truthy(r.nextVaccinationDate)
    ensures !Truthy(r.nextVaccinationDate) ==> r.nextVaccinationDate == Text(today)
    ensures !("next_vaccination_date" in p && Truthy(p["next_vaccination_date"]))
            ==> r.nextVaccinationDate == Text(today)
    ensures r.birthday == Get(p, "birthday", Null)
    ensures r.lastVaccinationDate == Get(p, "last_vaccination_date", Null)
    ensures r.lastDewormingDate == Get(p, "last_deworming_date", Null)
    ensures r.lastCheckupDate == Get(p, "last_checkup_date", Null)
  {
    PetRecord(
      p["id"], p["name"], p["species"],
      Get(p, "breed", Unknown), Get(p, "sex", Unknown), Get(p, "color", Unknown),
      Get(p, "age", Unknown), Get(p, "weight", Unknown),
      p["owner_name"], p["owner_phone"],
      Get(p, "status", Text("Healthy")),
      Get(p, "birthday", Null), Get(p, "last_vaccination_date", Null),
      var next := Get(p, "next_vaccination_date", Null);
      if Truthy(next) then next else Text(today),
      Get(p, "last_deworming_date", Null), Get(p, "last_checkup_date", Null))
  }

  /** The pets row a record was read from, under the column names of the
      pets table. */
  function RowOf(r: PetRecord): Row {
    map["id" := r.id, "name" := r.name, "species" := r.species, "breed" := r.breed,
        "sex" := r.sex, "color" := r.color, "age" := r.age, "weight" := r.weight,
        "owner_name" := r.ownerName, "owner_phone" := r.ownerPhone,
        "status" := r.status, "birthday" := r.birthday,
        "last_vaccination_date" := r.lastVaccinationDate,
        "next_vaccination_date" := r.nextVaccinationDate,
        "last_deworming_date" := r.lastDewormingDate,
        "last_checkup_date" := r.lastCheckupDate]
  }

  /** `map_pet` only renames columns: a row holding every column gives back
      the record it was built from, unless the next vaccination date is
      falsy, which becomes today. */
  lemma MapPetRoundTrip(r: PetRecord, today: string)
    ensures HasRequiredPetKeys(RowOf(r))
    ensures Truthy(r.nextVaccinationDate) ==> MapPet(RowOf(r), today) == r
    ensures !Truthy(r.nextVaccinationDate)
            ==> MapPet(RowOf(r), today) == r.(nextVaccinationDate := Text(today))
  {
    var p := RowOf(r);
    assert p["breed"] == r.breed && p["sex"] == r.sex && p["color"] == r.color;
    assert p["age"] == r.age && p["weight"] == r.weight && p["status"] == r.status;
    assert p["birthday"] == r.birthday && p["last_vaccination_date"] == r.lastVaccinationDate;
    assert p["next_vaccination_date"] == r.nextVaccinationDate;
    assert p["last_deworming_date"] == r.lastDewormingDate;
    assert p["last_checkup_date"] == r.lastCheckupDate;
  }

  /** The defaults apply only to keys absent from the row: a row read
      with `SELECT *` after `init_db` has every column, so a stored NULL
      is passed through, not replaced by "Unknown". */
  lemma MapPetDefaults(p: Row, today: string)
    requires HasRequiredPetKeys(p)
    ensures "breed" !in p ==> MapPet(p, today).breed == Unknown
    ensures "breed" in p ==> MapPet(p, today).breed == p["breed"]
    ensures "status" !in p ==> MapPet(p, today).status == Text("Healthy")
    ensures "status" in p ==> MapPet(p, today).status == p["status"]
    ensures "sex" !in p ==> MapPet(p, today).sex == Unknown
    ensures "sex" in p ==> MapPet(p, today).sex == p["sex"]
    ensures "color" !in p ==> MapPet(p, today).color == Unknown
    ensures "color" in p ==> MapPet(p, today).color == p["color"]
    ensures "age" !in p ==> MapPet(p, today).age == Unknown
    ensures "age" in p ==> MapPet(p, today).age == p["age"]
    ensures "weight" !in p ==> MapPet(p, today).weight == Unknown
    ensures "weight" in p ==> MapPet(p, today).weight == p["weight"]
  {
  }

  /** `GET /api/pets`: `map_pet` of every row. */
  function GetPets(pets: seq<Row>, today: string): (r: seq<PetRecord>)
    requires forall i :: 0 <= i < |pets| ==> HasRequiredPetKeys(pets[i])
    ensures |r| == |pets|
    ensures forall i :: 0 <= i < |pets| ==>
              HasRequiredPetKeys(pets[i]) && r[i].id == pets[i]["id"] && r[i].name == pets[i]["name"]
    ensures forall i :: 0 <= i < |pets| ==> r[i] == MapPet(pets[i], today)
  {
    seq(|pets|, i requires 0 <= i < |pets| => MapPet(pets[i], today))
  }

  // ---- the rows every insert path writes -------------------------------

  /** Every path that inserts a pet (`create_pet`, `import_excel`) writes
      text into `id`, `name`, `owner_name` and `owner_phone`; `species`
      is a column of the table. */
  predicate WellFormedPet(p: Row) {
    && HasRequiredPetKeys(p)
    && p["id"].Text? && p["name"].Text? && p["owner_name"].Text? && p["owner_phone"].Text?
  }

  predicate WellFormedPets(pets: seq<Row>) {
    forall p :: p in pets ==> WellFormedPet(p)
  }

  /** `p[col] = value` in a WHERE clause; NULL never matches. */
  predicate TextIs(p: Row, col: string, value: string) {
    col in p && p[col] == Text(value)
  }

  // ---- create_campaign: the audience -----------------------------------

  const AllPatients := "All Patients"
  const DogsOnly := "Dogs Only"
  const CatsOnly := "Cats Only"
  const OverduePatients := "Overdue Patients"
  const DueThisMonth := "Due This Month"

  /** `col LIKE 'prefix%'` for a prefix without wildcards: a text value
      that starts with `prefix`. A NULL never matches, and neither does an
      integer, whose decimal form has no '-' after its first character
      while a `YYYY-MM` prefix does. */
  predicate LikePrefix(p: Row, col: string, prefix: string) {
    col in p && p[col].Text? && prefix <= p[col].s
  }

  /** Whether `pet` is selected by the query built for `target`;
      `currentMonth` is `datetime.now().strftime("%Y-%m")`. */
  predicate InAudience(pet: Row, target: string, currentMonth: string) {
    if target == DogsOnly then TextIs(pet, "species", "Dog")
    else if target == CatsOnly then TextIs(pet, "species", "Cat")
    else if target == OverduePatients then TextIs(pet, "status", "Overdue")
    else if target == DueThisMonth then LikePrefix(pet, "next_vaccination_date", currentMonth)
    else true
  }

  /** `conn.execute(query, params).fetchall()` for the target's query, in
      table order. */
  function Audience(pets: seq<Row>, target: string, currentMonth: string): (r: seq<Row>)
    ensures forall p :: p in r <==> p in pets && InAudience(p, target, currentMonth)
    ensures |r| <= |pets|
    decreases |pets|
  {
    if pets == [] then []
    else
      var init := pets[..|pets| - 1];
      var last := pets[|pets| - 1];
      assert pets == init + [last];
      var rest := Audience(init, target, currentMonth);
      if InAudience(last, target, currentMonth) then rest + [last] else rest
  }

  /** A target that is none of the four named ones selects every pet,
      in table order. */
  lemma {:induction false} AudienceOfOtherTarget(pets: seq<Row>, target: string, currentMonth: string)
    requires target !in {DogsOnly, CatsOnly, OverduePatients, DueThisMonth}
    ensures Audience(pets, target, currentMonth) == pets
    decreases |pets|
  {
    if pets != [] {
      AudienceOfOtherTarget(pets[..|pets| - 1], target, currentMonth);
      assert pets == pets[..|pets| - 1] + [pets[|pets| - 1]];
    }
  }

  /** The audience keeps the table's order: it is the subsequence of the
      pets that match. */
  lemma {:induction false} AudienceOfAppend(pets: seq<Row>, p: Row, target: string, currentMonth: string)
    ensures Audience(pets + [p], target, currentMonth)
            == Audience(pets, target, currentMonth)
               + (if InAudience(p, target, currentMonth) then [p] else [])
  {
    assert (pets + [p])[..|pets + [p]| - 1] == pets;
  }

  // ---- create_campaign: personalisation --------------------------------

  const OwnerTag := "{owner_name}"
  const PetTag := "{pet_name}"

  /** `message.replace("{owner_name}", owner).replace("{pet_name}", name)`. */
  function Personalize(message: string, owner: string, name: string): string {
    ReplaceAll(ReplaceAll(message, OwnerTag, owner), PetTag, name)
  }

  predicate NoBrace(s: string) {
    forall k :: 0 <= k < |s| ==> s[k] != '{'
  }

  lemma NoBraceConcat(x: string, y: string)
    requires NoBrace(x) && NoBrace(y)
    ensures NoBrace(x + y)
  {
    assert forall k :: 0 <= k < |x + y| ==> (x + y)[k] == if k < |x| then x[k] else y[k - |x|];
  }

  /** `{owner_name}` does not occur in `b + "{pet_name}" + c`: the only
      brace there opens `{pet_name}`. */
  lemma OwnerTagAbsent(b: string, c: string)
    requires NoBrace(b) && NoBrace(c)
    ensures !Contains(b + PetTag + c, OwnerTag)
  {
    var afterBrace := PetTag[1..] + c;
    assert NoBrace(PetTag[1..]);
    NoBraceConcat(PetTag[1..], c);
    assert !(OwnerTag <= PetTag + c) by { assert (PetTag + c)[1] == 'p'; }
    assert (PetTag + c)[1..] == afterBrace;
    NoLeadCharNoMatch(afterBrace, OwnerTag);
    assert !Contains(PetTag + c, OwnerTag);
    ContainsSkipPrefix(b, PetTag + c, OwnerTag);
    assert b + (PetTag + c) == b + PetTag + c;
  }

  /** Replacing `{owner_name}` touches only the one occurrence before
      `{pet_name}`. */
  lemma FillOwner(a: string, b: string, c: string, owner: string)
    requires NoBrace(a) && NoBrace(b) && NoBrace(c)
    ensures ReplaceAll(a + OwnerTag + b + PetTag + c, OwnerTag, owner) == a + owner + b + PetTag + c
  {
    var tail := b + PetTag + c;
    assert a + OwnerTag + b + PetTag + c == a + OwnerTag + tail;
    ReplaceAllSplice(a, tail, OwnerTag, owner);
    OwnerTagAbsent(b, c);
    ReplaceAllAbsent(tail, OwnerTag, owner);
    assert a + owner + tail == a + owner + b + PetTag + c;
  }

  /** Replacing `{pet_name}` in a text with one occurrence of it. */
  lemma FillPet(head: string, c: string, name: string)
    requires NoBrace(head) && NoBrace(c)
    ensures ReplaceAll(head + PetTag + c, PetTag, name) == head + name + c
  {
    ReplaceAllSplice(head, c, PetTag, name);
    NoLeadCharKeeps(c, PetTag, name);
  }

  /** A template with one `{owner_name}` and then one `{pet_name}` gets the
      owner and the pet name spliced in, the rest copied unchanged. */
  lemma PersonalizeFills(a: string, b: string, c: string, owner: string, name: string)
    requires NoBrace(a) && NoBrace(b) && NoBrace(c) && NoBrace(owner)
    ensures Personalize(a + OwnerTag + b + PetTag + c, owner, name) == a + owner + b + name + c
  {
    FillOwner(a, b, c, owner);
    NoBraceConcat(a, owner);
    NoBraceConcat(a + owner, b);
    FillPet(a + owner + b, c, name);
  }

  /** A message without tags is sent to every pet unchanged. */
  lemma PersonalizeUntagged(message: string, owner: string, name: string)
    requires NoBrace(message)
    ensures Personalize(message, owner, name) == message
  {
    NoLeadCharKeeps(message, OwnerTag, owner);
    NoLeadCharKeeps(message, PetTag, name);
  }

  // ---- create_campaign: the rows it inserts ----------------------------

  /** The request body; `target` defaults to "All Patients". */
  datatype CampaignRequest = CampaignRequest(name: string, message: string, target: string)

  function CampaignRequestOf(name: string, message: string, target: Option<string>): (r: CampaignRequest)
    ensures r.target == if target.Some? then target.value else AllPatients
  {
    CampaignRequest(name, message, target.GetOr(AllPatients))
  }

  /** `{"status": "success", "campaign_id": …, "drafts_created": …}`. */
  datatype CampaignCreated = CampaignCreated(campaignId: string, draftsCreated: nat)

  /** The campaigns row: the INSERT names the status 'active', so the
      schema's 'draft' default is never used; `sent_count` takes the
      schema default. */
  function NewCampaign(campaignId: string, req: CampaignRequest): (c: Campaign)
    ensures c.id == campaignId && c.name == req.name && c.message == req.message
    ensures c.status == "active" && c.targetAudience == req.target
    ensures Literal(Integer(c.sentCount)) == DefaultOf(CampaignsColumns, "sent_count")
  {
    SchemaDefaults();
    Campaign(campaignId, req.name, req.message, req.target, "active", 0)
  }

  /** The draft inserted for one target pet. */
  function CampaignDraft(pet: Row, message: string, draftId: string): (d: Draft)
    requires WellFormedPet(pet)
    ensures d.status == "pending_review" && d.kind == "campaign"
    ensures TextIs(pet, "id", d.petId) && d.id == draftId
    ensures d.message == Personalize(message, pet["owner_name"].s, pet["name"].s)
  {
    Draft(draftId, pet["id"].s, "campaign",
          Personalize(message, pet["owner_name"].s, pet["name"].s), "pending_review")
  }

  /** The drafts inserted for `targets`, the i-th with id `draftId(i)`. */
  function CampaignDrafts(targets: seq<Row>, message: string, draftId: nat -> string)
    : (ds: seq<Draft>)
    requires WellFormedPets(targets)
    ensures |ds| == |targets|
    ensures forall i :: 0 <= i < |ds| ==>
              && ds[i].status == "pending_review" && ds[i].kind == "campaign"
              && TextIs(targets[i], "id", ds[i].petId) && ds[i].id == draftId(i)
    ensures forall i :: 0 <= i < |ds| ==>
              targets[i] in targets
              && ds[i].message == Personalize(message, targets[i]["owner_name"].s, targets[i]["name"].s)
  {
    assert forall i :: 0 <= i < |targets| ==> targets[i] in targets && WellFormedPet(targets[i]);
    var ds := seq(|targets|, i requires 0 <= i < |targets| => CampaignDraft(targets[i], message, draftId(i)));
    assert forall i :: 0 <= i < |ds| ==> ds[i] == CampaignDraft(targets[i], message, draftId(i));
    ds
  }

  lemma CampaignDraftsSnoc(targets: seq<Row>, message: string, draftId: nat -> string, i: nat)
    requires WellFormedPets(targets) && i < |targets|
    ensures WellFormedPets(targets[..i]) && WellFormedPets(targets[..i + 1])
    ensures CampaignDrafts(targets[..i + 1], message, draftId)
            == CampaignDrafts(targets[..i], message, draftId) + [CampaignDraft(targets[i], message, draftId(i))]
  {
    assert forall p :: p in targets[..i + 1] ==> p in targets;
    assert forall p :: p in targets[..i] ==> p in targets;
    var ds := CampaignDrafts(targets[..i + 1], message, draftId);
    assert targets[..i + 1][i] == targets[i];
    assert forall k :: 0 <= k < i ==> targets[..i + 1][k] == targets[..i][k];
  }

  /** The loop of `create_campaign` over the target pets: one INSERT
      INTO drafts per pet, in order. */
  method InsertCampaignDrafts(db: Database, targets: seq<Row>, message: string,
                              draftId: nat -> string)
    requires WellFormedPets(targets)
    modifies db`drafts
    ensures db.drafts == old(db.drafts) + CampaignDrafts(targets, message, draftId)
  {
    var i := 0;
    while i < |targets|
      invariant 0 <= i <= |targets|
      invariant WellFormedPets(targets[..i])
      invariant db.drafts == old(db.drafts) + CampaignDrafts(targets[..i], message, draftId)
    {
      var pet := targets[i];
      assert pet in targets;
      var msg := Personalize(message, pet["owner_name"].s, pet["name"].s);
      db.drafts := db.drafts + [Draft(draftId(i), pet["id"].s, "campaign", msg, "pending_review")];
      CampaignDraftsSnoc(targets, message, draftId, i);
      i := i + 1;
    }
    assert targets[..i] == targets;
  }

  /** `POST /api/campaigns`: one campaigns row, then one drafts row per
      target pet. */
  method CreateCampaign(db: Database, req: CampaignRequest, campaignId: string,
                        draftId: nat -> string, currentMonth: string)
    returns (resp: CampaignCreated)
    requires WellFormedPets(db.pets)
    modifies db`campaigns, db`drafts
    ensures db.campaigns == old(db.campaigns) + [NewCampaign(campaignId, req)]
    ensures db.drafts == old(db.drafts)
              + CampaignDrafts(Audience(db.pets, req.target, currentMonth), req.message, draftId)
    ensures resp == CampaignCreated(campaignId, |Audience(db.pets, req.target, currentMonth)|)
  {
    db.campaigns := db.campaigns + [NewCampaign(campaignId, req)];
    var targetPets := Audience(db.pets, req.target, currentMonth);
    InsertCampaignDrafts(db, targetPets, req.message, draftId);
    resp := CampaignCreated(campaignId, |targetPets|);
  }

  // ---- get_all_drafts ----------------------------------------------------

  /** One row of `SELECT d.*, p.name AS pet_name, p.owner_name,
      p.owner_phone FROM drafts d JOIN pets p ON d.pet_id = p.id`. */
  datatype DraftView = DraftView(draft: Draft, petName: SqlValue, ownerName: SqlValue,
                                 ownerPhone: SqlValue)

  function ViewOf(d: Draft, p: Row): DraftView {
    DraftView(d, Get(p, "name", Null), Get(p, "owner_name", Null), Get(p, "owner_phone", Null))
  }

  /** The joined rows of one draft: one per pet whose id is its `pet_id`. */
  function ViewsOf(d: Draft, pets: seq<Row>): (vs: seq<DraftView>)
    ensures forall v :: v in vs <==> exists p :: p in pets && TextIs(p, "id", d.petId) && v == ViewOf(d, p)
    decreases |pets|
  {
    if pets == [] then []
    else
      var rest := ViewsOf(d, pets[1..]);
      assert forall p :: p in pets <==> p == pets[0] || p in pets[1..];
      (if TextIs(pets[0], "id", d.petId) then [ViewOf(d, pets[0])] else []) + rest
  }

  /** `GET /api/agent/drafts`: the joined rows of the drafts still
      'pending_review', in table order. */
  function PendingViews(drafts: seq<Draft>, pets: seq<Row>): seq<DraftView>
    decreases |drafts|
  {
    if drafts == [] then []
    else
      (if drafts[0].status == "pending_review" then ViewsOf(drafts[0], pets) else [])
      + PendingViews(drafts[1..], pets)
  }

  /** A row is in the review queue exactly when it joins a pending draft
      with a pet whose id is the draft's `pet_id`. */
  lemma {:induction false} PendingViewsMembers(drafts: seq<Draft>, pets: seq<Row>, v: DraftView)
    ensures v in PendingViews(drafts, pets) <==>
              && v.draft in drafts && v.draft.status == "pending_review"
              && exists p :: p in pets && TextIs(p, "id", v.draft.petId) && v == ViewOf(v.draft, p)
    decreases |drafts|
  {
    if drafts != [] {
      PendingViewsMembers(drafts[1..], pets, v);
      assert v.draft in drafts <==> v.draft == drafts[0] || v.draft in drafts[1..];
      if v in ViewsOf(drafts[0], pets) {
        assert v.draft == drafts[0];
      }
    }
  }

  // ---- process_draft -----------------------------------------------------

  /** The request body; `message` defaults to None. */
  datatype DraftAction = DraftAction(draftId: string, approved: bool, message: Option<string>)

  /** `action.message or draft['draft_message']`. */
  function ChosenMessage(edited: Option<string>, stored: string): (m: string)
    ensures m == stored <== edited.None? || edited.value == ""
    ensures edited.Some? && edited.value != "" ==> m == edited.value
    ensures m == "" ==> stored == ""
  {
    if edited.Some? && edited.value != "" then edited.value else stored
  }

  /** The first pet, in table order, whose id is `petId`. */
  function PetWithId(pets: seq<Row>, petId: string): (r: Option<Row>)
    ensures r.Some? ==> r.value in pets && TextIs(r.value, "id", petId)
    ensures r.Some? ==> exists i :: 0 <= i < |pets| && pets[i] == r.value
                          && forall j :: 0 <= j < i ==> !TextIs(pets[j], "id", petId)
    ensures r.None? ==> forall p :: p in pets ==> !TextIs(p, "id", petId)
    decreases |pets|
  {
    if pets == [] then None
    else if TextIs(pets[0], "id", petId) then Some(pets[0])
    else PetWithId(pets[1..], petId)
  }

  /** `fetchone()` of `SELECT d.*, p.owner_phone FROM drafts d JOIN pets p
      ON d.pet_id = p.id WHERE d.id = ?`: the first draft with that id
      whose pet exists, with the pet. The draft's status is not part of
      the query. */
  function FindForSend(drafts: seq<Draft>, pets: seq<Row>, draftId: string)
    : (r: Option<(Draft, Row)>)
    ensures r.Some? ==> && r.value.0 in drafts && r.value.0.id == draftId
                        && r.value.1 in pets && TextIs(r.value.1, "id", r.value.0.petId)
    ensures r.None? ==> forall d :: d in drafts && d.id == draftId ==> PetWithId(pets, d.petId).None?
    decreases |drafts|
  {
    if drafts == [] then None
    else if drafts[0].id == draftId && PetWithId(pets, drafts[0].petId).Some? then
      Some((drafts[0], PetWithId(pets, drafts[0].petId).value))
    else FindForSend(drafts[1..], pets, draftId)
  }

  /** `UPDATE drafts SET status = ? WHERE id = ?`. */
  function SetStatus(drafts: seq<Draft>, draftId: string, status: string): (r: seq<Draft>)
    ensures |r| == |drafts|
    ensures forall i :: 0 <= i < |drafts| ==>
              r[i] == if drafts[i].id == draftId then drafts[i].(status := status) else drafts[i]
  {
    seq(|drafts|, i requires 0 <= i < |drafts| =>
      if drafts[i].id == draftId then drafts[i].(status := status) else drafts[i])
  }

  /** The drafts table after `process_draft(action)`. */
  function ProcessedDrafts(drafts: seq<Draft>, pets: seq<Row>, action: DraftAction): (r: seq<Draft>)
    ensures |r| == |drafts|
    ensures action.approved && FindForSend(drafts, pets, action.draftId).None? ==> r == drafts
  {
    if action.approved then
      if FindForSend(drafts, pets, action.draftId).Some? then SetStatus(drafts, action.draftId, "sent")
      else drafts
    else SetStatus(drafts, action.draftId, "rejected")
  }

  /** `drafts.id` is the table's PRIMARY KEY. */
  predicate UniqueIds(drafts: seq<Draft>) {
    forall i, j :: 0 <= i < j < |drafts| ==> drafts[i].id != drafts[j].id
  }

  /** The transitions: an approved draft whose pet exists becomes 'sent',
      an approved draft without one does not change, a rejected draft
      becomes 'rejected' whether or not its pet exists, and every draft
      with another id is left as it was. The draft's old status plays no
      part: a draft already sent is sent again. */
  lemma ProcessedTransitions(drafts: seq<Draft>, pets: seq<Row>, action: DraftAction, i: nat)
    requires UniqueIds(drafts)
    requires i < |drafts|
    ensures var r := ProcessedDrafts(drafts, pets, action);
            && |r| == |drafts|
            && (drafts[i].id != action.draftId ==> r[i] == drafts[i])
            && (drafts[i].id == action.draftId ==>
                  r[i] == drafts[i].(status := if !action.approved then "rejected"
                                               else if PetWithId(pets, drafts[i].petId).Some? then "sent"
                                               else drafts[i].status))
  {
    if action.approved && drafts[i].id == action.draftId {
      var found := FindForSend(drafts, pets, action.draftId);
      if found.Some? {
        var j :| 0 <= j < |drafts| && drafts[j] == found.value.0;
        assert j == i;
        assert PetWithId(pets, drafts[i].petId).Some?;
      } else {
        assert drafts[i] in drafts;
      }
    }
  }

  /** Once processed, a draft with that id leaves the review queue
      (unless it was an approval that found no pet). */
  lemma ProcessedLeavesQueue(drafts: seq<Draft>, pets: seq<Row>, action: DraftAction, v: DraftView)
    requires !action.approved || FindForSend(drafts, pets, action.draftId).Some?
    requires v.draft.id == action.draftId
    ensures v !in PendingViews(ProcessedDrafts(drafts, pets, action), pets)
  {
    var r := ProcessedDrafts(drafts, pets, action);
    PendingViewsMembers(r, pets, v);
    if v.draft in r {
      var i :| 0 <= i < |r| && r[i] == v.draft;
      assert r[i].status != "pending_review";
    }
  }

  /** The text handed to `send_whatsapp_reminder` by `process_draft`:
      the owner's phone and the chosen message, when the approved id joins
      a pet. */
  function Outgoing(drafts: seq<Draft>, pets: seq<Row>, action: DraftAction): (r: Option<(string, string)>)
    requires WellFormedPets(pets)
    ensures r.Some? <==> action.approved && FindForSend(drafts, pets, action.draftId).Some?
    ensures r.Some? ==>
              var (d, pet) := FindForSend(drafts, pets, action.draftId).value;
              pet in pets && r.value == (pet["owner_phone"].s, ChosenMessage(action.message, d.message))
  {
    if !action.approved then None
    else match FindForSend(drafts, pets, action.draftId)
      case None => None
      case Some((d, pet)) => Some((pet["owner_phone"].s, ChosenMessage(action.message, d.message)))
  }

  /** `POST /api/agent/process-draft`. The WhatsApp result is awaited and
      discarded: the status becomes 'sent' whatever it says, and the route
      always answers success. */
  method ProcessDraft(db: Database, action: DraftAction, env: Kapso.Env,
                      post: Kapso.Request -> Kapso.PostOutcome)
    returns (outgoing: Option<(string, string)>, delivery: Option<Kapso.SendResult>)
    requires WellFormedPets(db.pets)
    modifies db`drafts
    ensures db.drafts == ProcessedDrafts(old(db.drafts), db.pets, action)
    ensures outgoing == Outgoing(old(db.drafts), db.pets, action)
    ensures delivery.Some? <==> outgoing.Some?
    ensures outgoing.Some? ==>
              delivery == Some(Kapso.SendWhatsAppReminder(env, outgoing.value.0, outgoing.value.1, post))
  {
    outgoing, delivery := None, None;
    if action.approved {
      var draft := FindForSend(db.drafts, db.pets, action.draftId);
      if draft.Some? {
        var (d, pet) := draft.value;
        var to, text := pet["owner_phone"].s, ChosenMessage(action.message, d.message);
        outgoing := Some((to, text));
        delivery := Some(Kapso.SendWhatsAppReminder(env, to, text, post));
        db.drafts := SetStatus(db.drafts, action.draftId, "sent");
      }
    } else {
      db.drafts := SetStatus(db.drafts, action.draftId, "rejected");
    }
  }

  // ---- generate_auto_wishes ----------------------------------------------

  const WishHello := "\U{1F31F} Hello "
  const WishMiddle := "! We're thinking of "
  const WishEnd := " today. Just a quick note from Kizuna Vet Center to wish you both a healthy and happy week! \U{1F43E}\U{2728}"

  /** The wellness message for one pet. */
  function WishMessage(owner: string, name: string): string {
    WishHello + owner + WishMiddle + name + WishEnd
  }

  /** The message greets the owner and names the pet, at fixed places. */
  lemma WishNamesOwnerAndPet(owner: string, name: string)
    ensures OccursAt(WishMessage(owner, name), owner, |WishHello|)
    ensures OccursAt(WishMessage(owner, name), name, |WishHello| + |owner| + |WishMiddle|)
    ensures Contains(WishMessage(owner, name), owner) && Contains(WishMessage(owner, name), name)
  {
    var m := WishMessage(owner, name);
    var i := |WishHello|;
    var j := i + |owner| + |WishMiddle|;
    assert m[i..i + |owner|] == owner;
    assert m[j..j + |name|] == name;
    assert OccursAt(m, owner, i) && OccursAt(m, name, j);
    ContainsIff(m, owner);
    ContainsIff(m, name);
  }

  /** The draft inserted for one pet. */
  function WishDraft(pet: Row, draftId: string): (d: Draft)
    requires WellFormedPet(pet)
    ensures d.status == "pending_review" && d.kind == "wellness_wish"
    ensures TextIs(pet, "id", d.petId) && d.id == draftId
    ensures d.message == WishMessage(pet["owner_name"].s, pet["name"].s)
  {
    Draft(draftId, pet["id"].s, "wellness_wish",
          WishMessage(pet["owner_name"].s, pet["name"].s), "pending_review")
  }

  /** The drafts one run inserts: one per pet, in table order. */
  function WishDrafts(pets: seq<Row>, draftId: nat -> string): (ds: seq<Draft>)
    requires WellFormedPets(pets)
    ensures |ds| == |pets|
    ensures forall i :: 0 <= i < |ds| ==>
              && ds[i].status == "pending_review" && ds[i].kind == "wellness_wish"
              && TextIs(pets[i], "id", ds[i].petId) && ds[i].id == draftId(i)
              && pets[i] in pets
              && ds[i].message == WishMessage(pets[i]["owner_name"].s, pets[i]["name"].s)
  {
    assert forall i :: 0 <= i < |pets| ==> pets[i] in pets && WellFormedPet(pets[i]);
    var ds := seq(|pets|, i requires 0 <= i < |pets| => WishDraft(pets[i], draftId(i)));
    assert forall i :: 0 <= i < |ds| ==> ds[i] == WishDraft(pets[i], draftId(i));
    ds
  }

  lemma WishDraftsSnoc(pets: seq<Row>, draftId: nat -> string, i: nat)
    requires WellFormedPets(pets) && i < |pets|
    ensures WellFormedPets(pets[..i]) && WellFormedPets(pets[..i + 1])
    ensures WishDrafts(pets[..i + 1], draftId) == WishDrafts(pets[..i], draftId) + [WishDraft(pets[i], draftId(i))]
  {
    assert forall p :: p in pets[..i + 1] ==> p in pets;
    assert forall p :: p in pets[..i] ==> p in pets;
    assert pets[..i + 1][i] == pets[i];
    assert forall k :: 0 <= k < i ==> pets[..i + 1][k] == pets[..i][k];
  }

  /** `POST /api/agent/generate-auto-wishes`. */
  method GenerateAutoWishes(db: Database, draftId: nat -> string) returns (count: nat)
    requires WellFormedPets(db.pets)
    modifies db`drafts
    ensures db.drafts == old(db.drafts) + WishDrafts(db.pets, draftId)
    ensures count == |db.pets|
  {
    var pets := db.pets;
    count := 0;
    var i := 0;
    while i < |pets|
      invariant 0 <= i <= |pets| && count == i
      invariant WellFormedPets(pets[..i])
      invariant db.drafts == old(db.drafts) + WishDrafts(pets[..i], draftId)
    {
      var pet := pets[i];
      assert pet in pets;
      var message := WishMessage(pet["owner_name"].s, pet["name"].s);
      db.drafts := db.drafts + [Draft(draftId(i), pet["id"].s, "wellness_wish", message, "pending_review")];
      WishDraftsSnoc(pets, draftId, i);
      count := count + 1;
      i := i + 1;
    }
    assert pets[..i] == pets;
  }

  /** The number of drafts waiting for review. */
  function PendingCount(drafts: seq<Draft>): (n: nat)
    ensures n <= |drafts|
  {
    if drafts == [] then 0
    else (if drafts[0].status == "pending_review" then 1 else 0) + PendingCount(drafts[1..])
  }

  lemma {:induction false} PendingCountAppend(a: seq<Draft>, b: seq<Draft>)
    ensures PendingCount(a + b) == PendingCount(a) + PendingCount(b)
    decreases |a|
  {
    if a == [] {
      assert a + b == b;
    } else {
      assert (a + b)[1..] == a[1..] + b;
      PendingCountAppend(a[1..], b);
    }
  }

  lemma {:induction false} AllPendingCount(ds: seq<Draft>)
    requires forall i :: 0 <= i < |ds| ==> ds[i].status == "pending_review"
    ensures PendingCount(ds) == |ds|
    decreases |ds|
  {
    if ds != [] {
      AllPendingCount(ds[1..]);
    }
  }

  /** Each run adds one pending draft per pet, whatever is already
      queued, so running it twice queues every pet twice: the route is
      not idempotent. */
  lemma AutoWishesNotIdempotent(drafts: seq<Draft>, pets: seq<Row>,
                                first: nat -> string, second: nat -> string)
    requires WellFormedPets(pets) && pets != []
    ensures var once := drafts + WishDrafts(pets, first);
            var twice := once + WishDrafts(pets, second);
            && PendingCount(once) == PendingCount(drafts) + |pets|
            && PendingCount(twice) == PendingCount(drafts) + 2 * |pets|
            && twice != once
  {
    var w1, w2 := WishDrafts(pets, first), WishDrafts(pets, second);
    AllPendingCount(w1);
    AllPendingCount(w2);
    PendingCountAppend(drafts, w1);
    PendingCountAppend(drafts + w1, w2);
    assert |drafts + w1 + w2| > |drafts + w1|;
  }

  // ---- settings ----------------------------------------------------------

  /** A value of the JSON body of `POST /api/settings`, as far as the
      clinic's forms send them. */
  datatype JsonValue = JString(s: string) | JInt(i: int) | JBool(b: bool) | JNull

  function Digit(d: nat): (c: char)
    requires d < 10
    ensures '0' <= c <= '9'
  {
    (('0' as int) + d) as char
  }

  /** Python's `str(n)` for n >= 0. */
  function NatToDecimal(n: nat): (s: string)
    ensures |s| >= 1
    ensures forall k :: 0 <= k < |s| ==> '0' <= s[k] <= '9'
    ensures s[0] == '0' ==> n == 0
    decreases n
  {
    if n < 10 then [Digit(n)] else NatToDecimal(n / 10) + [Digit(n % 10)]
  }

  /** The number a string of decimal digits denotes. */
  function DecimalValue(s: string): nat
    requires forall k :: 0 <= k < |s| ==> '0' <= s[k] <= '9'
    decreases |s|
  {
    if s == [] then 0 else DecimalValue(s[..|s| - 1]) * 10 + (s[|s| - 1] as int - '0' as int)
  }

  /** `str(n)` reads back as `n`. */
  lemma {:induction false} DecimalRoundTrip(n: nat)
    ensures DecimalValue(NatToDecimal(n)) == n
    decreases n
  {
    if n >= 10 {
      DecimalRoundTrip(n / 10);
      var s := NatToDecimal(n);
      assert s[..|s| - 1] == NatToDecimal(n / 10);
    }
  }

  /** Python's `str(value)`. */
  function PyStr(v: JsonValue): (s: string)
    ensures v.JString? ==> s == v.s
    ensures v.JInt? && v.i >= 0 ==> s == NatToDecimal(v.i) && DecimalValue(s) == v.i
    ensures v.JInt? && v.i < 0 ==> s == "-" + NatToDecimal(-v.i) && DecimalValue(s[1..]) == -v.i
    ensures v.JBool? ==> s == (if v.b then "True" else "False")
    ensures v.JNull? ==> s == "None"
  {
    match v
    case JString(s) => s
    case JInt(i) =>
      DecimalRoundTrip(if i < 0 then -i else i);
      if i < 0 then
        assert ("-" + NatToDecimal(-i))[1..] == NatToDecimal(-i);
        "-" + NatToDecimal(-i)
      else NatToDecimal(i)
    case JBool(b) => if b then "True" else "False"
    case JNull => "None"
  }

  /** The settings after `INSERT OR REPLACE` of every key of `body`. */
  function Upserted(settings: map<string, string>, body: map<string, JsonValue>)
    : (r: map<string, string>)
    ensures r.Keys == settings.Keys + body.Keys
    ensures forall k :: k in body ==> r[k] == PyStr(body[k])
    ensures forall k :: k in settings && k !in body ==> r[k] == settings[k]
  {
    settings + map k | k in body :: PyStr(body[k])
  }

  /** Saving the same body twice stores what saving it once stores. */
  lemma UpsertedIdempotent(settings: map<string, string>, body: map<string, JsonValue>)
    ensures Upserted(Upserted(settings, body), body) == Upserted(settings, body)
  {
  }

  /** `POST /api/settings`: one INSERT OR REPLACE per key of the body. */
  method UpdateSettings(db: Database, body: map<string, JsonValue>)
    modifies db`settings
    ensures db.settings == Upserted(old(db.settings), body)
  {
    var remaining := body.Keys;
    while remaining != {}
      invariant remaining <= body.Keys
      invariant db.settings == old(db.settings) + map k | k in body.Keys - remaining :: PyStr(body[k])
      decreases remaining
    {
      var key :| key in remaining;
      db.settings := db.settings[key := PyStr(body[key])];
      remaining := remaining - {key};
    }
    assert body.Keys - remaining == body.Keys;
  }

  // ---- send_reminder_route -------------------------------------------------

  /** The HTTP answer: 200 with the message id, or an HTTPException. */
  datatype HttpReply = Ok(sid: Option<string>) | HttpError(status: int, detail: string)

  /** `POST /api/reminders/send`. */
  function SendReminderRoute(env: Kapso.Env, to: string, message: string,
                             post: Kapso.Request -> Kapso.PostOutcome): (r: HttpReply)
    ensures r.Ok? <==> Kapso.SendWhatsAppReminder(env, to, message, post).Delivered?
    ensures r.Ok? ==> r.sid == Kapso.SendWhatsAppReminder(env, to, message, post).sid
    ensures r.HttpError? ==>
              r.status == 500 && r.detail == Kapso.SendWhatsAppReminder(env, to, message, post).error
  {
    match Kapso.SendWhatsAppReminder(env, to, message, post)
    case Delivered(sid) => Ok(sid)
    case NotDelivered(e) => HttpError(500, e)
  }
}
