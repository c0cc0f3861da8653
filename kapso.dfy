/** WhatsApp delivery through the Kapso API (backend/services/kapso.py):
    reading the credentials, refusing placeholder credentials, cleaning the
    recipient number, building the request and mapping the HTTP outcome to
    the result dictionary. The HTTP POST is a function parameter `post`,
    so "the network is not reached" reads as "the result does not depend
    on `post`". */
module Kapso {
  import opened Wrappers
  import opened Text

  /** The process environment after `.env` has been loaded. */
  type Env = map<string, string>

  const ApiKeyVar := "KAPSO_API_KEY"
  const PhoneIdVar := "KAPSO_PHONE_NUMBER_ID"
  const VersionVar := "KAPSO_VERSION"
  const DefaultVersion := "v21.0"
  const ApiBase := "https://api.kapso.ai/meta/whatsapp/"
  const ApiKeyError := "KAPSO_API_KEY is missing or contains placeholder text in .env"
  const PhoneIdError := "KAPSO_PHONE_NUMBER_ID is missing or contains placeholder text in .env"
  /** `str(e)` of the IndexError raised by `[][0]`. */
  const EmptyMessagesError := "list index out of range"

  /** `os.getenv(name, default)`. */
  function GetEnv(env: Env, name: string, default: string): string {
    if name in env then env[name] else default
  }

  datatype Config = Config(apiKey: string, phoneId: string, version: string)

  /** The three variables, each stripped; only the version has a default. */
  function ReadConfig(env: Env): Config {
    Config(Strip(GetEnv(env, ApiKeyVar, "")),
           Strip(GetEnv(env, PhoneIdVar, "")),
           Strip(GetEnv(env, VersionVar, DefaultVersion)))
  }

  /** The credential is missing or still the `.env` template text. */
  function IsPlaceholder(x: string): (r: bool)
    ensures r <==> || x == []
                   || (exists i: nat :: OccursAt(x, "your_", i))
                   || (exists i: nat :: OccursAt(x, "id_here", i))
  {
    ContainsIff(x, "your_");
    ContainsIff(x, "id_here");
    x == [] || Contains(x, "your_") || Contains(x, "id_here")
  }

  /** The recipient with every "+" and every "whatsapp:" deleted (in that
      order), then stripped. */
  function CleanRecipient(to: string): string {
    Strip(ReplaceAll(ReplaceAll(to, "+", ""), "whatsapp:", ""))
  }

  datatype Payload = Payload(messagingProduct: string, recipientType: string,
                             to: string, kind: string, textBody: string)

  datatype Request = Request(url: string, authorization: string,
                             contentType: string, payload: Payload)

  /** `https://api.kapso.ai/meta/whatsapp/{version}/{phone_id}/messages`. */
  function MessagesUrl(version: string, phoneId: string): (url: string)
    ensures |url| == |ApiBase| + |version| + |phoneId| + 10
    ensures url[..|ApiBase|] == ApiBase
    ensures url[|ApiBase|..|ApiBase| + |version|] == version
    ensures url[|ApiBase| + |version|] == '/'
    ensures url[|ApiBase| + |version| + 1..|url| - 9] == phoneId
    ensures url[|url| - 9..] == "/messages"
  {
    ApiBase + version + "/" + phoneId + "/messages"
  }

  /** The POST of kapso.py: the versioned URL, the Bearer key, JSON, and
      a text message to the cleaned recipient. */
  function BuildRequest(cfg: Config, to: string, message: string): (r: Request)
    ensures r.url == MessagesUrl(cfg.version, cfg.phoneId)
    ensures r.authorization == "Bearer " + cfg.apiKey && r.contentType == "application/json"
    ensures r.payload.messagingProduct == "whatsapp" && r.payload.recipientType == "individual"
    ensures r.payload.kind == "text"
    ensures r.payload.to == CleanRecipient(to) && r.payload.textBody == message
  {
    Request(MessagesUrl(cfg.version, cfg.phoneId),
            "Bearer " + cfg.apiKey,
            "application/json",
            Payload("whatsapp", "individual", CleanRecipient(to), "text", message))
  }

  /** Everything before the POST: the two credential checks, in order,
      then the request. */
  function Prepare(env: Env, to: string, message: string): (r: Result<Request, string>)
    ensures IsPlaceholder(ReadConfig(env).apiKey) ==> r == Failure(ApiKeyError)
    ensures !IsPlaceholder(ReadConfig(env).apiKey) && IsPlaceholder(ReadConfig(env).phoneId)
            ==> r == Failure(PhoneIdError)
    ensures r.Success? ==>
              && !IsPlaceholder(ReadConfig(env).apiKey) && !IsPlaceholder(ReadConfig(env).phoneId)
              && r.value.payload.to == CleanRecipient(to)
              && r.value.payload.textBody == message
              && r.value.authorization == "Bearer " + ReadConfig(env).apiKey
              && r.value.url == MessagesUrl(ReadConfig(env).version, ReadConfig(env).phoneId)
    ensures r.Success? ==> r.value == BuildRequest(ReadConfig(env), to, message)
  {
    var cfg := ReadConfig(env);
    if IsPlaceholder(cfg.apiKey) then Failure(ApiKeyError)
    else if IsPlaceholder(cfg.phoneId) then Failure(PhoneIdError)
    else Success(BuildRequest(cfg, to, message))
  }

  /** The JSON body of a reply, as far as the code reads it:
      `data.get("messages", [{}])[0].get("id")`. */
  datatype ReplyJson =
    | Unparsable(detail: string)           // response.json() raised
    | NoMessagesKey                        // the default [{}] is used
    | MessageIds(ids: seq<Option<string>>) // the "id" of each message, if any

  datatype PostOutcome =
    | Reply(status: int, text: string, json: ReplyJson)
    | Raised(detail: string)               // httpx raised; str(e)

  /** `{"success": True, "sid": sid}` or `{"success": False, "error": e}`. */
  datatype SendResult = Delivered(sid: Option<string>) | NotDelivered(error: string)

  /** The reply mapping inside the `try`. */
  function MapOutcome(o: PostOutcome): (r: SendResult)
    ensures r.Delivered? <==>
              && o.Reply? && o.status == 200
              && (o.json.NoMessagesKey? || (o.json.MessageIds? && o.json.ids != []))
    ensures o.Reply? && o.status != 200 ==> r == NotDelivered(o.text)
    ensures o.Raised? ==> r == NotDelivered(o.detail)
    ensures o.Reply? && o.status == 200 && o.json.Unparsable? ==> r == NotDelivered(o.json.detail)
    ensures o.Reply? && o.status == 200 && o.json.MessageIds? && o.json.ids == []
            ==> r == NotDelivered(EmptyMessagesError)
    ensures r.Delivered? && o.json.MessageIds? ==> r.sid == o.json.ids[0]
    ensures r.Delivered? && o.json.NoMessagesKey? ==> r.sid == None
  {
    match o
    case Raised(e) => NotDelivered(e)
    case Reply(status, text, json) =>
      if status != 200 then NotDelivered(text)
      else match json
        case Unparsable(e) => NotDelivered(e)
        case NoMessagesKey => Delivered(None)
        case MessageIds(ids) =>
          if ids == [] then NotDelivered(EmptyMessagesError) else Delivered(ids[0])
  }

  /** `send_whatsapp_reminder(to, message)` with the HTTP client `post`. */
  function SendWhatsAppReminder(env: Env, to: string, message: string,
                                post: Request -> PostOutcome): (r: SendResult)
    ensures IsPlaceholder(ReadConfig(env).apiKey) ==> r == NotDelivered(ApiKeyError)
    ensures !IsPlaceholder(ReadConfig(env).apiKey) && IsPlaceholder(ReadConfig(env).phoneId)
            ==> r == NotDelivered(PhoneIdError)
    ensures r.Delivered? ==> Prepare(env, to, message).Success?
  {
    match Prepare(env, to, message)
    case Failure(e) => NotDelivered(e)
    case Success(req) => MapOutcome(post(req))
  }

  /** With a placeholder credential the HTTP client is never consulted:
      any two clients give the same result. */
  lemma PlaceholderNeverPosts(env: Env, to: string, message: string,
                              post1: Request -> PostOutcome, post2: Request -> PostOutcome)
    requires IsPlaceholder(ReadConfig(env).apiKey) || IsPlaceholder(ReadConfig(env).phoneId)
    ensures SendWhatsAppReminder(env, to, message, post1)
            == SendWhatsAppReminder(env, to, message, post2)
  {
  }

  /** With valid credentials exactly one request is posted, and it carries
      the cleaned number and the message unchanged. */
  lemma ValidCredentialsPostOnce(env: Env, to: string, message: string,
                                 post: Request -> PostOutcome)
    requires !IsPlaceholder(ReadConfig(env).apiKey) && !IsPlaceholder(ReadConfig(env).phoneId)
    ensures Prepare(env, to, message).Success?
    ensures SendWhatsAppReminder(env, to, message, post)
            == MapOutcome(post(Prepare(env, to, message).value))
  {
  }

  /** Without KAPSO_VERSION the URL uses version v21.0. */
  lemma DefaultVersionUrl(env: Env, phoneId: string)
    requires VersionVar !in env
    ensures ReadConfig(env).version == DefaultVersion
    ensures MessagesUrl(ReadConfig(env).version, phoneId)
            == ApiBase + "v21.0/" + phoneId + "/messages"
  {
    StripIdentity(DefaultVersion);
    assert ApiBase + DefaultVersion + "/" == ApiBase + "v21.0/";
  }

  /** However the number is written, the cleaned recipient has no "+". */
  lemma {:induction false} CleanRecipientHasNoPlus(to: string)
    ensures '+' !in CleanRecipient(to)
  {
    var a := ReplaceAll(to, "+", "");
    DeleteCharRemovesAll(to, '+');
    var b := ReplaceAll(a, "whatsapp:", "");
    ReplaceAllChars(a, "whatsapp:", "", '+');
    StripKeepsAbsent(b, '+');
  }

  predicate IsDigits(d: string) {
    forall k :: 0 <= k < |d| ==> '0' <= d[k] <= '9'
  }

  /** A digit is not whitespace, so stripping digits changes nothing. */
  lemma StripDigits(d: string)
    requires IsDigits(d)
    ensures Strip(d) == d
  {
    StripIdentity(d);
  }

  /** The number forms a sender may use all clean to the bare digits. */
  lemma CleanRecipientDigits(d: string)
    requires IsDigits(d)
    ensures CleanRecipient(d) == d
  {
    NoLeadCharKeeps(d, "+", "");
    NoLeadCharKeeps(d, "whatsapp:", "");
    StripIdentity(d);
  }

  lemma CleanRecipientPlus(d: string)
    requires IsDigits(d)
    ensures CleanRecipient("+" + d) == d
  {
    ReplaceAllSplice([], d, "+", "");
    assert [] + "+" + d == "+" + d;
    assert ReplaceAll("+" + d, "+", "") == ReplaceAll(d, "+", "");
    CleanRecipientDigits(d);
  }

  /** Deleting every `w` from `w + d`, where `d` holds no first character
      of `w`, leaves `d`. */
  lemma DeletePrefix(w: string, d: string)
    requires w != [] && forall k :: 0 <= k < |d| ==> d[k] != w[0]
    ensures ReplaceAll(w + d, w, "") == d
  {
    ReplaceAllHead(w, d, "");
    NoLeadCharKeeps(d, w, "");
    assert "" + d == d;
  }

  /** Cleaning `w + d` where `w` holds no "+" and the digits `d` do not
      start another `w`: the first replace changes nothing, the second
      deletes `w`. */
  lemma CleanPrefixedWith(w: string, d: string)
    requires w != [] && forall k :: 0 <= k < |w| ==> w[k] != '+'
    requires IsDigits(d) && forall k :: 0 <= k < |d| ==> d[k] != w[0]
    ensures Strip(ReplaceAll(ReplaceAll(w + d, "+", ""), w, "")) == d
  {
    var x := w + d;
    assert forall k :: 0 <= k < |x| ==> x[k] != '+' by {
      forall k | 0 <= k < |x| ensures x[k] != '+' {
        if k >= |w| { assert x[k] == d[k - |w|]; }
      }
    }
    NoLeadCharKeeps(x, "+", "");
    assert ReplaceAll(x, "+", "") == x;
    DeletePrefix(w, d);
    StripDigits(d);
  }

  /** Deleting every "+" from `w + "+" + d`, where neither `w` nor the
      digits `d` hold one, leaves `w + d`. */
  lemma DeleteMiddlePlus(w: string, d: string)
    requires forall k :: 0 <= k < |w| ==> w[k] != '+'
    requires IsDigits(d)
    ensures ReplaceAll(w + "+" + d, "+", "") == w + d
  {
    ReplaceAllSplice(w, d, "+", "");
    NoLeadCharKeeps(d, "+", "");
    assert w + "" + d == w + d;
  }

  /** The same with a "+" between `w` and the digits. */
  lemma CleanPrefixedPlusWith(w: string, d: string)
    requires w != [] && forall k :: 0 <= k < |w| ==> w[k] != '+'
    requires IsDigits(d) && forall k :: 0 <= k < |d| ==> d[k] != w[0]
    ensures Strip(ReplaceAll(ReplaceAll(w + "+" + d, "+", ""), w, "")) == d
  {
    DeleteMiddlePlus(w, d);
    DeletePrefix(w, d);
    StripDigits(d);
  }

  lemma CleanRecipientPrefixed(d: string)
    requires IsDigits(d)
    ensures CleanRecipient("whatsapp:" + d) == d
  {
    CleanPrefixedWith("whatsapp:", d);
  }

  lemma CleanRecipientPrefixedPlus(d: string)
    requires IsDigits(d)
    ensures CleanRecipient("whatsapp:+" + d) == d
  {
    CleanPrefixedPlusWith("whatsapp:", d);
    assert "whatsapp:" + "+" + d == "whatsapp:+" + d;
  }
}
