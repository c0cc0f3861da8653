// The campaign hub screen: the template gallery, the create-campaign
// form, and the review queue of drafts the backend wrote.

module CampaignHub {
  import opened Wrappers
  import opened SqliteDb
  import Backend
  import TextOps = Text
  import opened Gallery

  // ---- the template gallery ---------------------------------------------

  /** The wording of a default message, cut at its placeholders: one
      `{owner_name}` followed by one `{pet_name}`, or `{pet_name}` alone. */
  datatype Wording =
    | OwnerThenPet(opening: string, middle: string, closing: string)
    | PetOnly(opening: string, closing: string)
  {
    /** The message text with its placeholders in place. */
    function Message(): string {
      match this
      case OwnerThenPet(a, b, c) => a + Backend.OwnerTag + b + Backend.PetTag + c
      case PetOnly(a, c) => a + Backend.PetTag + c
    }
  }

  /** One card of the gallery, with the fields the form copies from it
      (icons, colours and the description are presentation only). */
  datatype Template = Template(id: string, name: string, wording: Wording, target: string)
  {
    function DefaultMessage(): string {
      wording.Message()
    }
  }

  const Deworming := Template("deworming", "Deworming Reminder",
    OwnerThenPet(DewormingOpening, DewormingMiddle, DewormingClosing), Backend.AllPatients)
  const Wellness := Template("wellness", "Wellness Check-up",
    OwnerThenPet(WellnessOpening, WellnessMiddle, WellnessClosing), Backend.AllPatients)
  const Rabies := Template("rabies", "Rabies Vaccination",
    PetOnly(RabiesOpening, RabiesClosing), Backend.AllPatients)
  const Dhlpp := Template("dhlpp", "DHLPP Vaccination",
    OwnerThenPet(DhlppOpening, DhlppMiddle, DhlppClosing), Backend.DogsOnly)
  const Feline := Template("feline", "Feline Vaccination",
    OwnerThenPet(FelineOpening, FelineMiddle, FelineClosing), Backend.CatsOnly)
  const NewMonth := Template("new-month", "Happy New Month",
    OwnerThenPet(NewMonthOpening, NewMonthMiddle, NewMonthClosing), Backend.AllPatients)

  const CampaignTemplates := [Deworming, Wellness, Rabies, Dhlpp, Feline, NewMonth]

  /** The options of the form's target-audience select, in their order. */
  const Audiences := [Backend.AllPatients, Backend.DogsOnly, Backend.CatsOnly,
                      Backend.OverduePatients, Backend.DueThisMonth]

  /** The form state, posted as the body of `POST /campaigns`. */
  const EmptyForm := Backend.CampaignRequest("", "", Backend.AllPatients)

  /** Every option of the select is one of the audiences the backend
      builds a query for, and every template targets one of them. */
  lemma AudiencesAreBackendTargets()
    ensures forall a :: a in Audiences <==>
              a in {Backend.AllPatients, Backend.DogsOnly, Backend.CatsOnly,
                    Backend.OverduePatients, Backend.DueThisMonth}
    ensures forall t :: t in CampaignTemplates ==> t.target in Audiences
  {
  }

  lemma NoBraceOf(s: string)
    requires '{' !in s
    ensures Backend.NoBrace(s)
  {
    assert forall k :: 0 <= k < |s| ==> s[k] in s;
  }

  function Filled(w: Wording, owner: string, name: string): string {
    match w
    case OwnerThenPet(a, b, c) => a + owner + b + name + c
    case PetOnly(a, c) => a + name + c
  }

  predicate BraceFree(w: Wording) {
    match w
    case OwnerThenPet(a, b, c) => '{' !in a && '{' !in b && '{' !in c
    case PetOnly(a, c) => '{' !in a && '{' !in c
  }

  /** Personalising a wording without stray braces splices the owner and
      the pet into its gaps and copies the rest; a wording that names only
      the pet does not receive the owner. */
  lemma PersonalizeWording(w: Wording, owner: string, name: string)
    requires BraceFree(w) && Backend.NoBrace(owner)
    ensures Backend.Personalize(w.Message(), owner, name) == Filled(w, owner, name)
  {
    match w
    case OwnerThenPet(a, b, c) =>
      NoBraceOf(a); NoBraceOf(b); NoBraceOf(c);
      Backend.PersonalizeFills(a, b, c, owner, name);
    case PetOnly(a, c) =>
      NoBraceOf(a); NoBraceOf(c);
      Backend.OwnerTagAbsent(a, c);
      TextOps.ReplaceAllAbsent(a + Backend.PetTag + c, Backend.OwnerTag, owner);
      TextOps.ReplaceAllSplice(a, c, Backend.PetTag, name);
      TextOps.NoLeadCharKeeps(c, Backend.PetTag, name);
  }

  /** With brace-free names, the filled message holds no brace at all, so no
      placeholder is left in it. */
  lemma FilledNoBrace(w: Wording, owner: string, name: string)
    requires BraceFree(w) && Backend.NoBrace(owner) && Backend.NoBrace(name)
    ensures Backend.NoBrace(Filled(w, owner, name))
  {
    match w
    case OwnerThenPet(a, b, c) =>
      NoBraceOf(a); NoBraceOf(b); NoBraceOf(c);
      Backend.NoBraceConcat(a, owner);
      Backend.NoBraceConcat(a + owner, b);
      Backend.NoBraceConcat(a + owner + b, name);
      Backend.NoBraceConcat(a + owner + b + name, c);
    case PetOnly(a, c) =>
      NoBraceOf(a); NoBraceOf(c);
      Backend.NoBraceConcat(a, name);
      Backend.NoBraceConcat(a + name, c);
  }

  lemma GalleryBraceFree()
    ensures forall t :: t in CampaignTemplates ==> BraceFree(t.wording)
  {
    ShortPiecesBraceFree();
    DewormingClosingBraceFree(); WellnessClosingBraceFree(); RabiesClosingBraceFree();
    DhlppClosingBraceFree(); FelineClosingBraceFree(); NewMonthClosingBraceFree();
  }

  /** What a campaign made from an unedited template sends to one owner:
      the template's wording with that owner's and pet's names filled in
      (the rabies template names only the pet), and no placeholder left. */
  lemma TemplatePersonalized(t: Template, owner: string, name: string)
    requires t in CampaignTemplates && Backend.NoBrace(owner)
    ensures Backend.Personalize(t.DefaultMessage(), owner, name) == Filled(t.wording, owner, name)
    ensures Backend.NoBrace(name) ==> Backend.NoBrace(Backend.Personalize(t.DefaultMessage(), owner, name))
  {
    GalleryBraceFree();
    PersonalizeWording(t.wording, owner, name);
    if Backend.NoBrace(name) {
      FilledNoBrace(t.wording, owner, name);
    }
  }

  // ---- the review queue -------------------------------------------------

  /** The card's textarea: `draftMessages[id] || draft_message`, the local
      edit unless it is missing or empty. */
  function DisplayedText(edits: map<string, string>, id: string, stored: string): (t: string)
    ensures t == stored || (id in edits && t == edits[id])
    ensures t == "" ==> stored == ""
  {
    if id in edits && edits[id] != "" then edits[id] else stored
  }

  /** The `message` field of the process-draft body: `draftMessages[id] || ''`. */
  function SubmittedMessage(edits: map<string, string>, id: string): (m: string)
    ensures id !in edits ==> m == ""
  {
    if id in edits then edits[id] else ""
  }

  /** The body sent when a card's button is pressed. */
  function ActionFor(edits: map<string, string>, id: string, approved: bool): (a: Backend.DraftAction)
    ensures a.draftId == id && a.approved == approved && a.message.Some?
  {
    Backend.DraftAction(id, approved, Some(SubmittedMessage(edits, id)))
  }

  /** What is sent is what the card shows: the backend's choice between the
      submitted text and the stored draft is exactly the textarea's text. */
  lemma SentIsDisplayed(edits: map<string, string>, id: string, stored: string)
    ensures Backend.ChosenMessage(ActionFor(edits, id, true).message, stored)
            == DisplayedText(edits, id, stored)
  {
  }

  /** Clearing the textarea shows, and sends, the stored draft again; an
      edit of one card changes no other card. */
  lemma EditsAreLocal(edits: map<string, string>, id: string, other: string, text: string, stored: string)
    ensures DisplayedText(edits[id := ""], id, stored) == stored
    ensures other != id ==> DisplayedText(edits[id := text], other, stored) == DisplayedText(edits, other, stored)
  {
  }

  // ---- the screen's state -------------------------------------------------

  /** How a POST ended: a reply with `res.ok`, a reply without it, or an
      exception from `fetch`. */
  datatype PostOutcome = Accepted | Refused | Unreachable

  class Hub {
    var drafts: seq<Backend.DraftView>
    var campaigns: seq<Campaign>
    var loading: bool
    var isCreateModalOpen: bool
    var selectedTemplate: Option<Template>
    var campaignDraft: Backend.CampaignRequest
    var draftMessages: map<string, string>

    /** The form's target is always one of the select's options, and a
        selected template is one of the gallery's. */
    predicate Valid()
      reads this
    {
      && campaignDraft.target in Audiences
      && (selectedTemplate.Some? ==> selectedTemplate.value in CampaignTemplates)
    }

    constructor ()
      ensures Valid()
      ensures drafts == [] && campaigns == [] && loading && !isCreateModalOpen
      ensures selectedTemplate == None && campaignDraft == EmptyForm && draftMessages == map[]
    {
      drafts, campaigns, loading, isCreateModalOpen := [], [], true, false;
      selectedTemplate, campaignDraft, draftMessages := None, EmptyForm, map[];
    }

    /** `fetchDrafts`: the reply body replaces the list (the status is not
        checked); `None` is an exception from `fetch` or from parsing. */
    method FetchDrafts(outcome: Option<seq<Backend.DraftView>>)
      modifies this`drafts
      ensures drafts == outcome.GetOr(old(drafts))
    {
      if outcome.Some? {
        drafts := outcome.value;
      }
    }

    /** `fetchCampaigns`: replaces the list on success; either way the
        loading spinner goes away. */
    method FetchCampaigns(outcome: Option<seq<Campaign>>)
      modifies this`campaigns, this`loading
      ensures campaigns == outcome.GetOr(old(campaigns))
      ensures !loading
    {
      if outcome.Some? {
        campaigns := outcome.value;
      }
      loading := false;
    }

    /** The mount effect: both lists are fetched. */
    method Mount(draftsOutcome: Option<seq<Backend.DraftView>>, campaignsOutcome: Option<seq<Campaign>>)
      modifies this`drafts, this`campaigns, this`loading
      ensures drafts == draftsOutcome.GetOr(old(drafts))
      ensures campaigns == campaignsOutcome.GetOr(old(campaigns)) && !loading
    {
      FetchDrafts(draftsOutcome);
      FetchCampaigns(campaignsOutcome);
    }

    /** `handleSelectTemplate`: the form is filled from the card and opened. */
    method SelectTemplate(t: Template)
      requires Valid() && t in CampaignTemplates
      modifies this`selectedTemplate, this`campaignDraft, this`isCreateModalOpen
      ensures Valid()
      ensures selectedTemplate == Some(t) && isCreateModalOpen
      ensures campaignDraft == Backend.CampaignRequest(t.name, t.DefaultMessage(), t.target)
    {
      AudiencesAreBackendTargets();
      selectedTemplate := Some(t);
      campaignDraft := Backend.CampaignRequest(t.name, t.DefaultMessage(), t.target);
      isCreateModalOpen := true;
    }

    /** `handleCreateCustom`: an empty form aimed at all patients. */
    method CreateCustom()
      requires Valid()
      modifies this`selectedTemplate, this`campaignDraft, this`isCreateModalOpen
      ensures Valid()
      ensures selectedTemplate == None && campaignDraft == EmptyForm && isCreateModalOpen
    {
      selectedTemplate := None;
      campaignDraft := EmptyForm;
      isCreateModalOpen := true;
    }

    /** The modal's close button: the modal shuts and the template is
        forgotten, while the form keeps what was typed. */
    method CloseModal()
      requires Valid()
      modifies this`selectedTemplate, this`isCreateModalOpen
      ensures Valid()
      ensures !isCreateModalOpen && selectedTemplate == None
    {
      isCreateModalOpen := false;
      selectedTemplate := None;
    }

    method SetName(name: string)
      requires Valid()
      modifies this`campaignDraft
      ensures Valid()
      ensures campaignDraft == old(campaignDraft).(name := name)
    {
      campaignDraft := campaignDraft.(name := name);
    }

    method SetMessage(message: string)
      requires Valid()
      modifies this`campaignDraft
      ensures Valid()
      ensures campaignDraft == old(campaignDraft).(message := message)
    {
      campaignDraft := campaignDraft.(message := message);
    }

    /** The select offers only the five audiences. */
    method SetTarget(target: string)
      requires Valid() && target in Audiences
      modifies this`campaignDraft
      ensures Valid()
      ensures campaignDraft == old(campaignDraft).(target := target)
    {
      campaignDraft := campaignDraft.(target := target);
    }

    /** `handleCreateCampaign`, submitted only with a name and a message
        (both inputs are `required`). `body` is what is posted; on an ok
        reply the form is closed and reset and the campaigns are fetched
        again, otherwise nothing changes. */
    method CreateCampaign(outcome: PostOutcome, refresh: Option<seq<Campaign>>)
      returns (body: Backend.CampaignRequest)
      requires Valid() && campaignDraft.name != "" && campaignDraft.message != ""
      modifies this`isCreateModalOpen, this`campaignDraft, this`selectedTemplate,
               this`campaigns, this`loading
      ensures Valid()
      ensures body == old(campaignDraft) && body.target in Audiences
      ensures outcome.Accepted? ==>
                && !isCreateModalOpen && campaignDraft == EmptyForm && selectedTemplate == None
                && campaigns == refresh.GetOr(old(campaigns)) && !loading
      ensures !outcome.Accepted? ==>
                && isCreateModalOpen == old(isCreateModalOpen) && campaignDraft == old(campaignDraft)
                && selectedTemplate == old(selectedTemplate)
                && campaigns == old(campaigns) && loading == old(loading)
    {
      body := campaignDraft;
      if outcome.Accepted? {
        isCreateModalOpen := false;
        campaignDraft := EmptyForm;
        selectedTemplate := None;
        FetchCampaigns(refresh);
      }
    }

    /** Typing in a card's textarea. */
    method EditDraftMessage(id: string, text: string)
      modifies this`draftMessages
      ensures draftMessages == old(draftMessages)[id := text]
      ensures DisplayedText(draftMessages, id, "") == text
    {
      draftMessages := draftMessages[id := text];
    }

    /** `process_draft(id, approved)`: posts the action, then fetches the
        queue again whatever the reply was; an exception from `fetch` skips
        the refresh. The local edit is kept. */
    method ProcessDraft(id: string, approved: bool, outcome: PostOutcome,
                        refresh: Option<seq<Backend.DraftView>>)
      returns (action: Backend.DraftAction)
      modifies this`drafts
      ensures action == ActionFor(draftMessages, id, approved)
      ensures drafts == if outcome.Unreachable? then old(drafts) else refresh.GetOr(old(drafts))
    {
      action := ActionFor(draftMessages, id, approved);
      if !outcome.Unreachable? {
        FetchDrafts(refresh);
      }
    }

    /** `generateAutoWishes`: there is no handler, so an exception from the
        POST escapes (`raised`) before the queue is fetched again. */
    method GenerateAutoWishes(outcome: PostOutcome, refresh: Option<seq<Backend.DraftView>>)
      returns (raised: bool)
      modifies this`drafts
      ensures raised <==> outcome.Unreachable?
      ensures drafts == if raised then old(drafts) else refresh.GetOr(old(drafts))
    {
      raised := outcome.Unreachable?;
      if !raised {
        FetchDrafts(refresh);
      }
    }
  }
}
