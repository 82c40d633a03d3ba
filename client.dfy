/** Ubiquity of src/client.ts: the v1 client an app user's device talks to.
    URLs come from a path map (or from an injected URL locator), with the
    company and app tokens filled in; user-scoped URLs then get the user id
    taken from the JWT. */
module V1Client {
  import opened Js
  import opened Http

  /** What the identity provider reports (its `getIdentity()` result). */
  datatype ProviderIdentity = ProviderIdentity(isAuthenticated: bool, jwt: Option<string>)

  /** The client's `identity` option: an explicit JWT, and whether an
      identity provider is configured. */
  datatype ClientIdentity = ClientIdentity(jwt: Option<string>, hasProvider: bool)

  /** The client's options. `als` stands for the URL locator: the URL it
      returns for each endpoint of the 'ubiquity' service. A None field is
      one the caller left out. */
  datatype ClientOptions = ClientOptions(baseUrl: Option<string>, baseS3Url: Option<string>,
                                         als: Option<map<string, string>>,
                                         identity: Option<ClientIdentity>)

  const DefaultClientOptions := ClientOptions(Some(DefaultBaseUrl), Some(DefaultBaseS3Url), None,
                                              Some(ClientIdentity(None, false)))

  /** `{ ...defaultOptions, ...options }`. */
  function SpreadClientOptions(user: ClientOptions): ClientOptions {
    ClientOptions(if user.baseUrl.Some? then user.baseUrl else DefaultClientOptions.baseUrl,
                  if user.baseS3Url.Some? then user.baseS3Url else DefaultClientOptions.baseS3Url,
                  user.als,
                  if user.identity.Some? then user.identity else DefaultClientOptions.identity)
  }

  /** The options the constructor leaves: the defaults when none are given;
      otherwise the caller's, with empty or missing base URLs replaced. */
  function ClientWithDefaults(user: Option<ClientOptions>): (o: ClientOptions)
    ensures TruthyText(o.baseUrl) && TruthyText(o.baseS3Url)
    ensures user.None? ==> o == DefaultClientOptions
    ensures user.Some? ==> o.als == user.value.als
    ensures user.Some? && TruthyText(user.value.baseUrl) ==> o.baseUrl == user.value.baseUrl
    ensures user.Some? && TruthyText(user.value.baseS3Url) ==> o.baseS3Url == user.value.baseS3Url
    ensures user.Some? && !TruthyText(user.value.baseUrl) ==> o.baseUrl == Some(DefaultBaseUrl)
    ensures user.Some? && !TruthyText(user.value.baseS3Url) ==> o.baseS3Url == Some(DefaultBaseS3Url)
    ensures o.identity == if user.Some? && user.value.identity.Some? then user.value.identity
                          else DefaultClientOptions.identity
  {
    if user.None? then DefaultClientOptions
    else
      var o := SpreadClientOptions(user.value);
      var o := if TruthyText(o.baseUrl) then o else o.(baseUrl := Some(DefaultBaseUrl));
      if TruthyText(o.baseS3Url) then o else o.(baseS3Url := Some(DefaultBaseS3Url))
  }

  const CompanySlot := "{{companyToken}}"
  const AppSlot := "{{appToken}}"
  const UserSlot := "{{appUserId}}"

  /** The URL templates of the known endpoints. */
  const PathMap: map<string, string> := map[
    "appPublicConfig" := "c/" + CompanySlot + "/apps/" + AppSlot + "/app.json",
    "registration" := "api/appusers/v1/" + AppSlot + "/register/",
    "getProfile" := "api/appusers/v1/" + AppSlot + "/profile/",
    "setProfile" := "api/appusers/v1/" + AppSlot + "/profile/set/",
    "setDevice" := "api/appusers/v1/" + AppSlot + "/set_device/",
    "appConfig" := "c/" + CompanySlot + "/apps/" + AppSlot + "/app_users/" + UserSlot + "/app_config.json",
    "messageHistory" := "c/" + CompanySlot + "/apps/" + AppSlot + "/app_users/" + UserSlot + "/messaging/list.json",
    "viewableIssues" := "c/" + CompanySlot + "/apps/" + AppSlot + "/app_users/" + UserSlot + "/app_config.json"
  ]

  /** The unfilled URL of an endpoint: the locator's answer when a locator
      is configured (even for endpoints the path map knows), otherwise the
      chosen base URL followed by the path map's template. */
  function Template(o: ClientOptions, endpoint: string, useS3: bool): (t: Option<string>)
    ensures o.als.Some? ==> (t.Some? <==> endpoint in o.als.value)
    ensures o.als.None? ==> (t.Some? <==> endpoint in PathMap)
    ensures o.als.Some? && endpoint in o.als.value ==> t == Some(o.als.value[endpoint])
    ensures o.als.None? && endpoint in PathMap ==>
      t == Some(OptText(if useS3 then o.baseS3Url else o.baseUrl) + PathMap[endpoint])
  {
    if o.als.Some? then
      (if endpoint in o.als.value then Some(o.als.value[endpoint]) else None)
    else if endpoint in PathMap then
      Some(OptText(if useS3 then o.baseS3Url else o.baseUrl) + PathMap[endpoint])
    else None
  }

  /** getUrl(endpoint, useS3): the template with its first company slot and
      then its first app slot filled in, or UrlNotFound when there is no
      template. */
  function UrlFor(o: ClientOptions, companyToken: string, appToken: string, endpoint: string, useS3: bool): (r: Result<string, Error>)
    ensures r.Err? <==> Template(o, endpoint, useS3).None?
    ensures r.Err? ==> r.error == UrlNotFound
  {
    match Template(o, endpoint, useS3)
    case None => Err(UrlNotFound)
    case Some(t) => Ok(ReplaceFirst(ReplaceFirst(t, CompanySlot, companyToken), AppSlot, appToken))
  }

  /** A configured locator decides every URL: the base URLs and the path map
      play no part. */
  lemma LocatorTakesPrecedence(o: ClientOptions, companyToken: string, appToken: string, endpoint: string, useS3: bool)
    requires o.als.Some?
    ensures endpoint !in o.als.value ==> UrlFor(o, companyToken, appToken, endpoint, useS3) == Err(UrlNotFound)
    ensures endpoint in o.als.value ==> (UrlFor(o, companyToken, appToken, endpoint, useS3) ==
      UrlFor(o.(baseUrl := None, baseS3Url := None), companyToken, appToken, endpoint, !useS3))
  {
  }

  /** The locator's URL is used as it is when it has no slot to fill: the
      tokens play no part. */
  lemma {:induction false} LocatorUrlUsedVerbatim(o: ClientOptions, companyToken: string, appToken: string,
                                                  endpoint: string, useS3: bool)
    requires o.als.Some? && endpoint in o.als.value && '{' !in o.als.value[endpoint]
    ensures UrlFor(o, companyToken, appToken, endpoint, useS3) == Ok(o.als.value[endpoint])
  {
    var u := o.als.value[endpoint];
    ReplaceWithoutMatch(u, CompanySlot, companyToken);
    ReplaceWithoutMatch(u, AppSlot, appToken);
  }

  /** Without a locator, an endpoint outside the path map has no URL. */
  lemma UnknownEndpointFails(o: ClientOptions, companyToken: string, appToken: string, endpoint: string, useS3: bool)
    requires o.als.None? && endpoint !in PathMap
    ensures UrlFor(o, companyToken, appToken, endpoint, useS3) == Err(UrlNotFound)
  {
  }

  /** The user-scoped path, cut at the company slot. */
  lemma {:induction false} SplitAtCompany(base: string, mid: string, tail: string)
    ensures base + "c/" + CompanySlot + "/apps/" + mid + "/app_users/" + UserSlot + tail
            == (base + "c/") + CompanySlot + ("/apps/" + mid + "/app_users/" + UserSlot + tail)
  {
  }

  /** The same path with the company token in place, cut at the app slot. */
  lemma {:induction false} SplitAtApp(base: string, companyToken: string, tail: string)
    ensures (base + "c/") + companyToken + ("/apps/" + AppSlot + "/app_users/" + UserSlot + tail)
            == (base + "c/" + companyToken + "/apps/") + AppSlot + ("/app_users/" + UserSlot + tail)
  {
  }

  /** The pieces joined again once the app token is in place. */
  lemma {:induction false} JoinAfterApp(base: string, companyToken: string, appToken: string, tail: string)
    ensures (base + "c/" + companyToken + "/apps/") + appToken + ("/app_users/" + UserSlot + tail)
            == base + "c/" + companyToken + "/apps/" + appToken + "/app_users/" + UserSlot + tail
  {
  }

  /** Filling the company and app slots of a user-scoped path: both tokens
      land in their places and the user slot stays open. */
  lemma {:induction false} CompanyAndAppFilled(base: string, tail: string, companyToken: string, appToken: string)
    requires '{' !in base && '{' !in companyToken
    requires '$' !in companyToken && '$' !in appToken
    ensures ReplaceFirst(ReplaceFirst(base + "c/" + CompanySlot + "/apps/" + AppSlot + "/app_users/" + UserSlot + tail,
                                      CompanySlot, companyToken), AppSlot, appToken)
            == base + "c/" + companyToken + "/apps/" + appToken + "/app_users/" + UserSlot + tail
  {
    SplitAtCompany(base, AppSlot, tail);
    assert '{' !in base + "c/";
    FillSlot(base + "c/", CompanySlot, "/apps/" + AppSlot + "/app_users/" + UserSlot + tail, companyToken);
    SplitAtApp(base, companyToken, tail);
    assert '{' !in base + "c/" + companyToken + "/apps/";
    FillSlot(base + "c/" + companyToken + "/apps/", AppSlot, "/app_users/" + UserSlot + tail, appToken);
    JoinAfterApp(base, companyToken, appToken, tail);
  }

  /** What getUrl leaves of a user-scoped template on the S3 host: the
      company and app tokens filled in, the user slot still open. */
  lemma {:induction false} UserScopedTemplateFilled(o: ClientOptions, companyToken: string, appToken: string,
                                                    endpoint: string, tail: string)
    requires o.als.None?
    requires endpoint in PathMap
    requires PathMap[endpoint] == "c/" + CompanySlot + "/apps/" + AppSlot + "/app_users/" + UserSlot + tail
    requires '{' !in OptText(o.baseS3Url) && '{' !in companyToken
    requires '$' !in companyToken && '$' !in appToken
    ensures UrlFor(o, companyToken, appToken, endpoint, true)
            == Ok(OptText(o.baseS3Url) + "c/" + companyToken + "/apps/" + appToken + "/app_users/" + UserSlot + tail)
  {
    var base := OptText(o.baseS3Url);
    var t := base + PathMap[endpoint];
    assert Template(o, endpoint, true) == Some(t);
    assert t == base + "c/" + CompanySlot + "/apps/" + AppSlot + "/app_users/" + UserSlot + tail;
    CompanyAndAppFilled(base, tail, companyToken, appToken);
  }

  /** A user-scoped URL with all three slots filled: the S3 base URL, then
      the company token, the app token and the user id in their places. */
  lemma {:induction false} UserScopedUrl(o: ClientOptions, companyToken: string, appToken: string, endpoint: string,
                                         tail: string, sub: string)
    requires o.als.None?
    requires endpoint in PathMap
    requires PathMap[endpoint] == "c/" + CompanySlot + "/apps/" + AppSlot + "/app_users/" + UserSlot + tail
    requires '{' !in OptText(o.baseS3Url) && '{' !in companyToken && '{' !in appToken
    requires '$' !in companyToken && '$' !in appToken && '$' !in sub
    ensures UrlFor(o, companyToken, appToken, endpoint, true).Ok?
    ensures ReplaceFirst(UrlFor(o, companyToken, appToken, endpoint, true).value, UserSlot, sub)
            == OptText(o.baseS3Url) + "c/" + companyToken + "/apps/" + appToken + "/app_users/" + sub + tail
  {
    UserScopedTemplateFilled(o, companyToken, appToken, endpoint, tail);
    var a3 := OptText(o.baseS3Url) + "c/" + companyToken + "/apps/" + appToken + "/app_users/";
    assert '{' !in a3;
    FillSlot(a3, UserSlot, tail, sub);
  }

  /** A template of the API host has no company slot, so filling that
      slot leaves it unchanged. */
  lemma {:induction false} NoCompanySlot(a: string, tail: string, companyToken: string)
    requires '{' !in a && '{' !in tail
    ensures ReplaceFirst(a + AppSlot + tail, CompanySlot, companyToken) == a + AppSlot + tail
  {
    var t := a + AppSlot + tail;
    var n := |CompanySlot|;
    forall j: nat
      ensures !MatchesAt(t, CompanySlot, j)
    {
      if j + n <= |t| {
        var w := t[j..j + n];
        assert w[0] == t[j] && w[1] == t[j + 1] && w[2] == t[j + 2];
        if j < |a| {
          assert t[j] == a[j];
        } else if j == |a| {
          assert t[j + 2] == AppSlot[2] == 'a';
        } else if j == |a| + 1 {
          assert t[j + 1] == AppSlot[2];
        } else if j < |a| + |AppSlot| {
          assert t[j] == AppSlot[j - |a|];
          assert '{' !in AppSlot[2..];
          assert AppSlot[j - |a|] == AppSlot[2..][j - |a| - 2];
        } else {
          assert t[j] == tail[j - |a| - |AppSlot|];
        }
      }
    }
    assert IndexOf(t, CompanySlot).None?;
  }

  /** The path-map template of an endpoint, on the chosen base URL. */
  lemma TemplateOf(o: ClientOptions, endpoint: string, useS3: bool)
    requires o.als.None? && endpoint in PathMap
    ensures Template(o, endpoint, useS3) == Some(OptText(if useS3 then o.baseS3Url else o.baseUrl) + PathMap[endpoint])
  {
  }

  /** An app-scoped URL of the API host: the base URL, then the path with
      the app token in its slot. */
  lemma {:induction false} AppScopedUrl(o: ClientOptions, companyToken: string, appToken: string, endpoint: string,
                                        tail: string)
    requires o.als.None?
    requires endpoint in PathMap && PathMap[endpoint] == "api/appusers/v1/" + AppSlot + tail
    requires '{' !in OptText(o.baseUrl) && '{' !in tail && '$' !in appToken
    ensures UrlFor(o, companyToken, appToken, endpoint, false) == Ok(OptText(o.baseUrl) + "api/appusers/v1/" + appToken + tail)
  {
    var a := OptText(o.baseUrl) + "api/appusers/v1/";
    var t := a + AppSlot + tail;
    TemplateOf(o, endpoint, false);
    assert OptText(o.baseUrl) + PathMap[endpoint] == a + AppSlot + tail;
    assert '{' !in a;
    NoCompanySlot(a, tail, companyToken);
    FillSlot(a, AppSlot, tail, appToken);
  }

  /** The public configuration's template. */
  lemma PublicConfigTemplate()
    ensures PathMap["appPublicConfig"] == "c/" + CompanySlot + "/apps/" + AppSlot + "/app.json"
  {
  }

  /** Only the first occurrence of a slot is filled: a company token that
      itself reads `{{appToken}}` takes the app token, and the template's
      own app slot stays as it was. */
  lemma {:induction false} OnlyFirstSlotFilled(o: ClientOptions, appToken: string)
    requires o.als.None? && '{' !in OptText(o.baseS3Url) && '$' !in appToken
    ensures UrlFor(o, AppSlot, appToken, "appPublicConfig", true)
            == Ok(OptText(o.baseS3Url) + "c/" + appToken + "/apps/" + AppSlot + "/app.json")
  {
    var a := OptText(o.baseS3Url) + "c/";
    var b := "/apps/" + AppSlot + "/app.json";
    TemplateOf(o, "appPublicConfig", true);
    PublicConfigSplit(OptText(o.baseS3Url));
    assert '{' !in a;
    SlotTokenFilledInTurn(a, b, appToken);
    PublicConfigJoin(OptText(o.baseS3Url), appToken);
  }

  /** The public configuration's URL in the ordinary case: the S3 base URL,
      then the company token and the app token in their places. */
  lemma {:induction false} PublicConfigUrl(o: ClientOptions, companyToken: string, appToken: string)
    requires o.als.None? && '{' !in OptText(o.baseS3Url) && '{' !in companyToken
    requires '$' !in companyToken && '$' !in appToken
    ensures UrlFor(o, companyToken, appToken, "appPublicConfig", true)
            == Ok(OptText(o.baseS3Url) + "c/" + companyToken + "/apps/" + appToken + "/app.json")
  {
    var base := OptText(o.baseS3Url);
    TemplateOf(o, "appPublicConfig", true);
    PublicConfigSplit(base);
    assert '{' !in base + "c/";
    FillSlot(base + "c/", CompanySlot, "/apps/" + AppSlot + "/app.json", companyToken);
    PublicConfigJoin(base, companyToken);
    var a := base + "c/" + companyToken + "/apps/";
    assert '{' !in a;
    FillSlot(a, AppSlot, "/app.json", appToken);
  }

  /** The public configuration's URL, cut at the company slot. */
  lemma {:induction false} PublicConfigSplit(base: string)
    ensures base + PathMap["appPublicConfig"] == (base + "c/") + CompanySlot + ("/apps/" + AppSlot + "/app.json")
  {
    PublicConfigTemplate();
  }

  /** The pieces joined again once a token is in the company slot. */
  lemma {:induction false} PublicConfigJoin(base: string, x: string)
    ensures (base + "c/") + x + ("/apps/" + AppSlot + "/app.json") == base + "c/" + x + "/apps/" + AppSlot + "/app.json"
  {
  }

  /** The two fillings in turn, when the company token is the app slot. */
  lemma {:induction false} SlotTokenFilledInTurn(a: string, b: string, appToken: string)
    requires '{' !in a && '$' !in appToken
    ensures ReplaceFirst(ReplaceFirst(a + CompanySlot + b, CompanySlot, AppSlot), AppSlot, appToken) == a + appToken + b
  {
    FillSlot(a, CompanySlot, b, AppSlot);
    FillSlot(a, AppSlot, b, appToken);
  }

  /** The registration template. */
  lemma RegistrationTemplate()
    ensures PathMap["registration"] == "api/appusers/v1/" + AppSlot + "/register/"
  {
  }

  /** A `$&` in a token is a replacement pattern, not text: the slot is put
      back in place of the token. */
  lemma {:induction false} DollarPatternInToken(o: ClientOptions, companyToken: string)
    requires o.als.None? && '{' !in OptText(o.baseUrl)
    ensures UrlFor(o, companyToken, "$&", "registration", false)
            == Ok(OptText(o.baseUrl) + "api/appusers/v1/" + AppSlot + "/register/")
  {
    var a := OptText(o.baseUrl) + "api/appusers/v1/";
    var b := "/register/";
    var t := a + AppSlot + b;
    RegistrationTemplate();
    TemplateOf(o, "registration", false);
    assert OptText(o.baseUrl) + PathMap["registration"] == t;
    assert '{' !in a;
    NoCompanySlot(a, b, companyToken);
    assert UrlFor(o, companyToken, "$&", "registration", false) == Ok(ReplaceFirst(t, AppSlot, "$&"));
    FirstMatchAfter(a, AppSlot, b);
    assert t[..|a|] == a && t[|a| + |AppSlot|..] == b;
    var rep := "$&";
    assert rep[0] == '$' && rep[1] == '&' && rep[2..] == [];
    assert Substitution(rep, AppSlot, a, b) == AppSlot;
    assert ReplaceFirst(t, AppSlot, rep) == a + AppSlot + b;
    assert t == OptText(o.baseUrl) + "api/appusers/v1/" + AppSlot + "/register/";
  }

  /** jwt(): the explicit JWT when it is non-empty; otherwise the provider's
      JWT when a provider is configured and reports an authenticated user;
      otherwise undefined. */
  function Jwt(identity: Option<ClientIdentity>, fromProvider: ProviderIdentity): (r: Option<string>)
    ensures identity.None? ==> r.None?
    ensures identity.Some? && TruthyText(identity.value.jwt) ==> r == identity.value.jwt
    ensures identity.Some? && !TruthyText(identity.value.jwt) ==>
      r == if identity.value.hasProvider && fromProvider.isAuthenticated then fromProvider.jwt else None
  {
    if identity.None? then None
    else if TruthyText(identity.value.jwt) then identity.value.jwt
    else if identity.value.hasProvider then
      (if fromProvider.isAuthenticated then fromProvider.jwt else None)
    else None
  }

  /** An explicit JWT wins: what the provider says never matters then; and
      an unauthenticated provider identity yields no JWT. */
  lemma ExplicitJwtWins(identity: ClientIdentity, p: ProviderIdentity, q: ProviderIdentity)
    ensures TruthyText(identity.jwt) ==> Jwt(Some(identity), p) == Jwt(Some(identity), q) == identity.jwt
    ensures !TruthyText(identity.jwt) && !p.isAuthenticated ==> Jwt(Some(identity), p).None?
    ensures !TruthyText(identity.jwt) && !identity.hasProvider ==> Jwt(Some(identity), p).None?
  {
  }

  /** sub(jwt): the `sub` claim of the token; `decodeSub` stands for the
      base64 and JSON decoding of the payload. Without a token the split
      of undefined throws. */
  function Sub(jwt: Option<string>, decodeSub: string -> Result<Value, Error>): (r: Result<Value, Error>)
    ensures jwt.None? ==> r == Err(TypeError)
    ensures jwt.Some? ==> r == decodeSub(jwt.value)
  {
    if jwt.None? then Err(TypeError) else decodeSub(jwt.value)
  }

  const ErrorPrefix := "Ubiquity API Error: "

  /** A fetch that resolves to an ok response, or the error thrown: fetch's
      own rejection, or the UbiquityError built from message for a response
      that is not ok. */
  function Checked(o: FetchOutcome, message: string): (r: Result<Response, Error>)
    ensures r.Ok? <==> o.Responded? && o.response.IsOk()
    ensures r.Ok? ==> r.value == o.response
    ensures o.TransportFailure? ==> r == Err(FetchRejected)
    ensures o.Responded? && !o.response.IsOk() ==> r == Err(UbiquityError(ErrorPrefix + message, o.response.status))
  {
    match o
    case TransportFailure => Err(FetchRejected)
    case Responded(resp) =>
      if resp.IsOk() then Ok(resp) else Err(UbiquityError(ErrorPrefix + message, resp.status))
  }

  /** The JSON of a checked response. */
  function CheckedJson(o: FetchOutcome, message: string): (r: Result<Value, Error>)
    ensures r.Ok? <==> o.Responded? && o.response.IsOk() && o.response.body.Json?
    ensures r.Ok? ==> o.response.body == Json(r.value)
    ensures Checked(o, message).Err? ==> r == Err(Checked(o, message).error)
    ensures o.Responded? && o.response.IsOk() && o.response.body.Unparseable? ==> r == Err(SyntaxError)
  {
    match Checked(o, message)
    case Err(e) => Err(e)
    case Ok(resp) => DecodeJson(resp.body)
  }

  const EmptyHistory := Obj(map["messages" := Arr([])])

  const HistoryMessage := "Unable to retrieve the message history for the current user "

  /** The outcome of messageHistory's fetch: a 403 means "no history" and
      gives an empty message list; any other response that is not ok throws;
      an ok response gives its JSON. */
  function HistoryFrom(o: FetchOutcome): (r: Result<Value, Error>)
    ensures o.Responded? && o.response.status == 403 ==> r == Ok(EmptyHistory)
    ensures o.Responded? && !o.response.IsOk() && o.response.status != 403 ==>
      r == Err(UbiquityError(ErrorPrefix + HistoryMessage, o.response.status))
    ensures o.TransportFailure? || o.response.IsOk() ==> r == CheckedJson(o, HistoryMessage)
  {
    match o
    case TransportFailure => Err(FetchRejected)
    case Responded(resp) =>
      if !resp.IsOk() then
        (if resp.status == 403 then Ok(EmptyHistory)
         else Err(UbiquityError(ErrorPrefix + HistoryMessage, resp.status)))
      else DecodeJson(resp.body)
  }

  /** Among the statuses that are not ok, exactly 403 is forgiven. */
  lemma OnlyForbiddenForgiven(status: int, b: Body)
    requires !(200 <= status <= 299)
    ensures HistoryFrom(Responded(Response(status, b))).Ok? <==> status == 403
  {
  }

  /** The old-style document map: the categories, and the documents once for
      each store. */
  function OldStyle(categories: Value, documents: Value): (r: Value)
    ensures r.Obj? && r.props.Keys == {"categories", "iaps"}
    ensures r.props["categories"] == categories
    ensures r.props["iaps"].Obj? && r.props["iaps"].props.Keys == {"ios", "android", "web"}
    ensures r.props["iaps"].props["ios"] == r.props["iaps"].props["android"] == r.props["iaps"].props["web"] == documents
  {
    Obj(map["categories" := categories,
            "iaps" := Obj(map["ios" := documents, "android" := documents, "web" := documents])])
  }

  /** appContent's reshaping of the viewable-issues data: with a
      `documents` key and the old-style flag, the old-style map; otherwise
      the data itself. The `in` test comes first, so data that is not an
      object throws whatever the flag. */
  function ShapeContent(data: Value, useOldStyle: bool): (r: Result<Value, Error>)
    ensures r.Err? <==> !data.Obj? && !data.Arr?
    ensures r.Ok? && (!useOldStyle || !data.Obj? || "documents" !in data.props) ==> r.value == data
    ensures useOldStyle && data.Obj? && "documents" in data.props ==>
      r == Ok(OldStyle(if "categories" in data.props then data.props["categories"] else Undefined,
                       data.props["documents"]))
  {
    match HasProperty(data, "documents")
    case Err(e) => Err(e)
    case Ok(has) =>
      if has && useOldStyle then
        (match Js.Get(data, "categories")
         case Err(e) => Err(e)
         case Ok(categories) =>
           match Js.Get(data, "documents")
           case Err(e) => Err(e)
           case Ok(documents) => Ok(OldStyle(categories, documents)))
      else Ok(data)
  }

  /** publicAppContent's reshaping of the public configuration:
      `{categories, documents: iaps.ios}`. */
  function PublicContent(config: Value): (r: Result<Value, Error>)
    ensures r.Err? <==> config.Undefined? || config.Null?
                        || (config.Obj? && "iaps" in config.props
                            && (config.props["iaps"].Undefined? || config.props["iaps"].Null?))
                        || (config.Obj? && "iaps" !in config.props) || config.Bool? || config.Num?
                        || config.Str? || config.Arr?
    ensures r.Ok? ==> r.value.Obj? && r.value.props.Keys == {"categories", "documents"}
    ensures r.Ok? ==> config.Obj? && "iaps" in config.props
                      && r.value.props["categories"] == Js.Get(config, "categories").value
                      && r.value.props["documents"] == Js.Get(config.props["iaps"], "ios").value
  {
    match Js.Get(config, "categories")
    case Err(e) => Err(e)
    case Ok(categories) =>
      match Js.Get(config, "iaps")
      case Err(e) => Err(e)
      case Ok(iaps) =>
        match Js.Get(iaps, "ios")
        case Err(e) => Err(e)
        case Ok(ios) => Ok(Obj(map["categories" := categories, "documents" := ios]))
  }

  /** The two shapes carry the same content: reading the old-style map the
      way the public configuration is read gives back the categories and the
      documents. */
  lemma {:induction false} OldStyleReadsBack(categories: Value, documents: Value)
    ensures PublicContent(OldStyle(categories, documents))
            == Ok(Obj(map["categories" := categories, "documents" := documents]))
  {
    var m := OldStyle(categories, documents);
    assert Js.Get(m, "categories") == Ok(categories);
    assert Js.Get(m, "iaps") == Ok(m.props["iaps"]);
    assert Js.Get(m.props["iaps"], "ios") == Ok(documents);
  }

  /** The caller's profile object, which setProfile may change in place. */
  class ProfileObject {
    var props: map<string, Value>

    constructor (props: map<string, Value>)
      ensures this.props == props
    {
      this.props := props;
    }
  }

  const ClearProfileKey := "_clear_profile"

  /** `Bearer ${jwt}`, undefined included. */
  function BearerHeaders(jwt: Option<string>): (h: map<string, string>)
    ensures h.Keys == {AuthorizationHeader}
    ensures ParseAuthorization(h[AuthorizationHeader]) == Some(Bearer(OptText(jwt)))
  {
    var v := BearerScheme + OptText(jwt);
    assert v[0] == 'B' && v[..|BearerScheme|] == BearerScheme && v[|BearerScheme|..] == OptText(jwt);
    map[AuthorizationHeader := v]
  }

  /** A form body: its fields, by name, before serialisation. */
  function Form(fields: map<string, Value>): Value {
    Obj(fields)
  }

  /** The `json_data` field of the registration form: the username, and the
      password, undefined when none is given. */
  function Credentials(username: string, password: Option<string>): Value {
    Obj(map["username" := Str(username), "password" := if password.Some? then Str(password.value) else Undefined])
  }

  class Ubiquity {
    const companyToken: string
    const appToken: string
    var options: ClientOptions

    constructor (companyToken: string, appToken: string, options: Option<ClientOptions>)
      ensures this.companyToken == companyToken && this.appToken == appToken
      ensures this.options == ClientWithDefaults(options)
    {
      this.companyToken := companyToken;
      this.appToken := appToken;
      new;
      if options.None? {
        this.options := DefaultClientOptions;
      } else {
        this.options := SpreadClientOptions(options.value);
        if !TruthyText(this.options.baseUrl) {
          this.options := this.options.(baseUrl := Some(DefaultBaseUrl));
        }
        if !TruthyText(this.options.baseS3Url) {
          this.options := this.options.(baseS3Url := Some(DefaultBaseS3Url));
        }
      }
    }

    /** getUrl(endpoint, useS3), step by step on `result`. */
    method GetUrl(endpoint: string, useS3: bool) returns (r: Result<string, Error>)
      ensures r == UrlFor(options, companyToken, appToken, endpoint, useS3)
    {
      var result: Option<string> := None;
      if options.als.Some? {
        if endpoint in options.als.value {
          result := Some(options.als.value[endpoint]);
        }
      } else if endpoint in PathMap {
        var baseUrl := if useS3 then options.baseS3Url else options.baseUrl;
        result := Some(OptText(baseUrl) + PathMap[endpoint]);
      }
      if result.None? {
        return Err(UrlNotFound);
      }
      var url := ReplaceFirst(result.value, CompanySlot, companyToken);
      url := ReplaceFirst(url, AppSlot, appToken);
      r := Ok(url);
    }

    /** A user-scoped URL: the endpoint's URL with its first user slot
        replaced by the text of the JWT's `sub`. The token is decoded
        before the URL is looked up. */
    method UserUrl(endpoint: string, fromProvider: ProviderIdentity, decodeSub: string -> Result<Value, Error>)
      returns (r: Result<string, Error>)
      ensures Sub(Jwt(options.identity, fromProvider), decodeSub).Err? ==>
        r == Err(Sub(Jwt(options.identity, fromProvider), decodeSub).error)
      ensures Sub(Jwt(options.identity, fromProvider), decodeSub).Ok? ==>
        r == (match UrlFor(options, companyToken, appToken, endpoint, true)
              case Err(e) => Err(e)
              case Ok(u) => Ok(ReplaceFirst(u, UserSlot, ToStr(Sub(Jwt(options.identity, fromProvider), decodeSub).value))))
    {
      var sub := Sub(Jwt(options.identity, fromProvider), decodeSub);
      if sub.Err? {
        return Err(sub.error);
      }
      var url := GetUrl(endpoint, true);
      if url.Err? {
        return Err(url.error);
      }
      r := Ok(ReplaceFirst(url.value, UserSlot, ToStr(sub.value)));
    }

    /** register(username, password): a POST of the form to the registration
        URL, without authorization; the response is returned unchecked. */
    method Register(username: string, password: Option<string>, fetch: Request -> FetchOutcome)
      returns (sent: Option<Request>, r: Result<Response, Error>)
      ensures sent.Some? <==> UrlFor(options, companyToken, appToken, "registration", false).Ok?
      ensures sent.Some? ==> sent.value.url == UrlFor(options, companyToken, appToken, "registration", false).value
      ensures sent.Some? ==> sent.value.init.verb == Post && sent.value.init.headers == map[]
      ensures sent.Some? ==> sent.value.init.body == Some(Form(map["json_data" := Credentials(username, password)]))
      ensures sent.None? ==> r == Err(UrlNotFound)
      ensures sent.Some? ==> r == (if fetch(sent.value).Responded? then Ok(fetch(sent.value).response) else Err(FetchRejected))
    {
      var url := GetUrl("registration", false);
      if url.Err? {
        return None, Err(url.error);
      }
      var credentials := Credentials(username, password);
      var request := Http.Request(url.value, Init(Post, map[], Some(Form(map["json_data" := credentials]))));
      sent := Some(request);
      var o := fetch(request);
      r := if o.Responded? then Ok(o.response) else Err(FetchRejected);
    }

    /** getProfile(): the `data` of the profile JSON, fetched with the
        user's JWT. */
    method GetProfile(fromProvider: ProviderIdentity, fetch: Request -> FetchOutcome)
      returns (sent: Option<Request>, r: Result<Value, Error>)
      ensures sent.Some? <==> UrlFor(options, companyToken, appToken, "getProfile", false).Ok?
      ensures sent.None? ==> r == Err(UrlNotFound)
      ensures sent.Some? ==> sent.value == Http.Request(UrlFor(options, companyToken, appToken, "getProfile", false).value,
                                                        Init(Get, BearerHeaders(Jwt(options.identity, fromProvider)), None))
      ensures sent.Some? ==> r == (match CheckedJson(fetch(sent.value), "Unable to get profile for user")
                                  case Err(e) => Err(e)
                                  case Ok(content) => Js.Get(content, "data"))
    {
      var url := GetUrl("getProfile", false);
      if url.Err? {
        return None, Err(url.error);
      }
      var jwt := Jwt(options.identity, fromProvider);
      var request := Http.Request(url.value, Init(Get, BearerHeaders(jwt), None));
      sent := Some(request);
      var content := CheckedJson(fetch(request), "Unable to get profile for user");
      if content.Err? {
        return sent, Err(content.error);
      }
      r := Js.Get(content.value, "data");
    }

    /** setProfile(profile, clearExistingProfile): when asked to clear, the
        caller's object is marked with `_clear_profile` before it is sent;
        when no URL is found the object is left alone. */
    method SetProfile(profile: ProfileObject, clearExistingProfile: bool, fromProvider: ProviderIdentity,
                      fetch: Request -> FetchOutcome) returns (sent: Option<Request>, r: Result<Value, Error>)
      modifies profile
      ensures sent.Some? <==> UrlFor(options, companyToken, appToken, "setProfile", false).Ok?
      ensures sent.None? ==> r == Err(UrlNotFound) && profile.props == old(profile.props)
      ensures sent.Some? && clearExistingProfile ==> profile.props == old(profile.props)[ClearProfileKey := Bool(true)]
      ensures sent.Some? && !clearExistingProfile ==> profile.props == old(profile.props)
      ensures sent.Some? ==> sent.value == Http.Request(UrlFor(options, companyToken, appToken, "setProfile", false).value,
                                                        Init(Post, BearerHeaders(Jwt(options.identity, fromProvider)),
                                                             Some(Form(map["json_data" := Obj(profile.props)]))))
      ensures sent.Some? ==> r == (match Checked(fetch(sent.value), "Unable to update profile data")
                                  case Err(e) => Err(e)
                                  case Ok(_) => Ok(Undefined))
    {
      var url := GetUrl("setProfile", false);
      if url.Err? {
        return None, Err(url.error);
      }
      if clearExistingProfile {
        profile.props := profile.props[ClearProfileKey := Bool(true)];
      }
      var body := Form(map["json_data" := Obj(profile.props)]);
      var request := Http.Request(url.value, Init(Post, BearerHeaders(Jwt(options.identity, fromProvider)), Some(body)));
      sent := Some(request);
      var checked := Checked(fetch(request), "Unable to update profile data");
      r := if checked.Err? then Err(checked.error) else Ok(Undefined);
    }

    /** setDevice(installationId): registers the device installation. */
    method SetDevice(installationId: string, fromProvider: ProviderIdentity, fetch: Request -> FetchOutcome)
      returns (sent: Option<Request>, r: Result<Value, Error>)
      ensures sent.Some? <==> UrlFor(options, companyToken, appToken, "setDevice", false).Ok?
      ensures sent.None? ==> r == Err(UrlNotFound)
      ensures sent.Some? ==> sent.value == Http.Request(UrlFor(options, companyToken, appToken, "setDevice", false).value,
                                                        Init(Post, BearerHeaders(Jwt(options.identity, fromProvider)),
                                                             Some(Form(map["action" := Str("add"),
                                                                           "installation_id" := Str(installationId)]))))
      ensures sent.Some? ==> r == (match Checked(fetch(sent.value), "Unable to update device")
                                  case Err(e) => Err(e)
                                  case Ok(_) => Ok(Undefined))
    {
      var url := GetUrl("setDevice", false);
      if url.Err? {
        return None, Err(url.error);
      }
      var body := Form(map["action" := Str("add"), "installation_id" := Str(installationId)]);
      var request := Http.Request(url.value, Init(Post, BearerHeaders(Jwt(options.identity, fromProvider)), Some(body)));
      sent := Some(request);
      var checked := Checked(fetch(request), "Unable to update device");
      r := if checked.Err? then Err(checked.error) else Ok(Undefined);
    }

    /** appPublicConfiguration(): the public app.json from the S3 host, with
        no authorization. */
    method AppPublicConfiguration(fetch: Request -> FetchOutcome) returns (sent: Option<Request>, r: Result<Value, Error>)
      ensures sent.Some? <==> UrlFor(options, companyToken, appToken, "appPublicConfig", true).Ok?
      ensures sent.None? ==> r == Err(UrlNotFound)
      ensures sent.Some? ==> sent.value == Http.Request(UrlFor(options, companyToken, appToken, "appPublicConfig", true).value, PlainInit)
      ensures sent.Some? ==> r == CheckedJson(fetch(sent.value), "Unable to retrieve app public config")
    {
      var url := GetUrl("appPublicConfig", true);
      if url.Err? {
        return None, Err(url.error);
      }
      var request := Http.Request(url.value, PlainInit);
      sent := Some(request);
      r := CheckedJson(fetch(request), "Unable to retrieve app public config");
    }

    /** appConfiguration(): the user's app_config.json from the S3 host. */
    method AppConfiguration(fromProvider: ProviderIdentity, decodeSub: string -> Result<Value, Error>,
                            fetch: Request -> FetchOutcome) returns (sent: Option<Request>, r: Result<Value, Error>)
      ensures var u := UserUrlFor(options, companyToken, appToken, "appConfig", Jwt(options.identity, fromProvider), decodeSub);
              (sent.Some? <==> u.Ok?)
              && (u.Err? ==> r == Err(u.error))
              && (u.Ok? ==> sent.value == Http.Request(u.value, PlainInit)
                            && r == CheckedJson(fetch(sent.value), "Unable to retrieve app config for the current user "))
    {
      var url := UserUrl("appConfig", fromProvider, decodeSub);
      if url.Err? {
        return None, Err(url.error);
      }
      var request := Http.Request(url.value, PlainInit);
      sent := Some(request);
      r := CheckedJson(fetch(request), "Unable to retrieve app config for the current user ");
    }

    /** messageHistory(): the user's message list, empty on a 403. */
    method MessageHistory(fromProvider: ProviderIdentity, decodeSub: string -> Result<Value, Error>,
                          fetch: Request -> FetchOutcome) returns (sent: Option<Request>, r: Result<Value, Error>)
      ensures var u := UserUrlFor(options, companyToken, appToken, "messageHistory", Jwt(options.identity, fromProvider), decodeSub);
              (sent.Some? <==> u.Ok?)
              && (u.Err? ==> r == Err(u.error))
              && (u.Ok? ==> sent.value == Http.Request(u.value, PlainInit) && r == HistoryFrom(fetch(sent.value)))
    {
      var url := UserUrl("messageHistory", fromProvider, decodeSub);
      if url.Err? {
        return None, Err(url.error);
      }
      var request := Http.Request(url.value, PlainInit);
      sent := Some(request);
      r := HistoryFrom(fetch(request));
    }

    /** publicAppContent(): the public configuration, reshaped. */
    method PublicAppContent(fetch: Request -> FetchOutcome) returns (sent: Option<Request>, r: Result<Value, Error>)
      ensures sent.Some? <==> UrlFor(options, companyToken, appToken, "appPublicConfig", true).Ok?
      ensures sent.None? ==> r == Err(UrlNotFound)
      ensures sent.Some? ==> sent.value == Http.Request(UrlFor(options, companyToken, appToken, "appPublicConfig", true).value, PlainInit)
      ensures sent.Some? ==> r == (match CheckedJson(fetch(sent.value), "Unable to retrieve app public config")
                                  case Err(e) => Err(e)
                                  case Ok(config) => PublicContent(config))
    {
      var config;
      sent, config := AppPublicConfiguration(fetch);
      if config.Err? {
        return sent, Err(config.error);
      }
      r := PublicContent(config.value);
    }

    /** appContent(useOldStyleDocumentMap): without a JWT, the public
        content; with one, the user's viewable issues, reshaped. */
    method AppContent(useOldStyleDocumentMap: bool, fromProvider: ProviderIdentity,
                      decodeSub: string -> Result<Value, Error>, fetch: Request -> FetchOutcome)
      returns (sent: Option<Request>, r: Result<Value, Error>)
      ensures !TruthyText(Jwt(options.identity, fromProvider)) ==>
        (sent.Some? <==> UrlFor(options, companyToken, appToken, "appPublicConfig", true).Ok?)
        && (sent.None? ==> r == Err(UrlNotFound))
        && (sent.Some? ==> sent.value == Http.Request(UrlFor(options, companyToken, appToken, "appPublicConfig", true).value, PlainInit)
                           && r == (match CheckedJson(fetch(sent.value), "Unable to retrieve app public config")
                                    case Err(e) => Err(e)
                                    case Ok(config) => PublicContent(config)))
      ensures TruthyText(Jwt(options.identity, fromProvider)) ==>
        var u := UserUrlFor(options, companyToken, appToken, "viewableIssues", Jwt(options.identity, fromProvider), decodeSub);
        (sent.Some? <==> u.Ok?)
        && (u.Err? ==> r == Err(u.error))
        && (u.Ok? ==> sent.value == Http.Request(u.value, PlainInit)
                      && r == (match CheckedJson(fetch(sent.value), "Unable to retrieve the viewable issues for the current user ")
                               case Err(e) => Err(e)
                               case Ok(data) => ShapeContent(data, useOldStyleDocumentMap)))
    {
      var jwt := Jwt(options.identity, fromProvider);
      if !TruthyText(jwt) {
        sent, r := PublicAppContent(fetch);
        return;
      }
      var url := UserUrl("viewableIssues", fromProvider, decodeSub);
      if url.Err? {
        return None, Err(url.error);
      }
      var request := Http.Request(url.value, PlainInit);
      sent := Some(request);
      var data := CheckedJson(fetch(request), "Unable to retrieve the viewable issues for the current user ");
      if data.Err? {
        return sent, Err(data.error);
      }
      r := ShapeContent(data.value, useOldStyleDocumentMap);
    }
  }

  /** The URL of a user-scoped endpoint for a given JWT: the token is
      decoded first, then the URL is looked up and its user slot filled. */
  function UserUrlFor(o: ClientOptions, companyToken: string, appToken: string, endpoint: string,
                      jwt: Option<string>, decodeSub: string -> Result<Value, Error>): (r: Result<string, Error>)
    ensures Sub(jwt, decodeSub).Err? ==> r == Err(Sub(jwt, decodeSub).error)
    ensures Sub(jwt, decodeSub).Ok? ==> (r.Ok? <==> UrlFor(o, companyToken, appToken, endpoint, true).Ok?)
  {
    match Sub(jwt, decodeSub)
    case Err(e) => Err(e)
    case Ok(sub) =>
      match UrlFor(o, companyToken, appToken, endpoint, true)
      case Err(e) => Err(e)
      case Ok(u) => Ok(ReplaceFirst(u, UserSlot, ToStr(sub)))
  }

  /** Without a JWT the user-scoped endpoints throw before any request, on
      the split of undefined. */
  lemma NoJwtNoUserUrl(o: ClientOptions, companyToken: string, appToken: string, endpoint: string,
                       decodeSub: string -> Result<Value, Error>)
    ensures UserUrlFor(o, companyToken, appToken, endpoint, None, decodeSub) == Err(TypeError)
  {
  }
}
