/** What every Ubiquity client shares: the credentials and the Authorization
    header chosen from them, the JSON header set, the option defaults, and the
    abstract shape of an HTTP exchange (a request given to fetch, and what
    fetch comes back with). */
module Http {
  import opened Js

  /** The `identity` argument of the admin clients: either credential may be absent. */
  datatype IdentityOptions = IdentityOptions(jwt: Option<string>, apiKey: Option<string>)

  /** The two forms an Authorization header takes. */
  datatype Credential = ApiKey(key: string) | Bearer(token: string)

  const TokenScheme := "Token "
  const BearerScheme := "Bearer "

  function AuthText(c: Credential): string {
    match c
    case ApiKey(k) => TokenScheme + k
    case Bearer(t) => BearerScheme + t
  }

  /** Reads an Authorization value back into the credential it carries. */
  function ParseAuthorization(h: string): Option<Credential> {
    if StartsWith(h, TokenScheme) then Some(ApiKey(h[|TokenScheme|..]))
    else if StartsWith(h, BearerScheme) then Some(Bearer(h[|BearerScheme|..]))
    else None
  }

  /** `identity.apiKey ? \`Token ${apiKey}\` : \`Bearer ${jwt}\``: a truthy API
      key always wins; otherwise the JWT is sent as a bearer token, as the
      text "undefined" when there is none. */
  function AuthorizationValue(identity: IdentityOptions): (h: string)
    ensures ParseAuthorization(h) ==
      Some(if TruthyText(identity.apiKey) then ApiKey(identity.apiKey.value) else Bearer(OptText(identity.jwt)))
    ensures StartsWith(h, TokenScheme) <==> TruthyText(identity.apiKey)
  {
    var c := if TruthyText(identity.apiKey) then ApiKey(identity.apiKey.value) else Bearer(OptText(identity.jwt));
    var h := AuthText(c);
    assert h[..|TokenScheme|] == TokenScheme ==> c.ApiKey? by {
      if c.Bearer? { assert h[0] == 'B'; }
    }
    h
  }

  const AuthorizationHeader := "Authorization"
  const ContentTypeHeader := "Content-Type"
  const JsonContentType := "application/json"

  /** `{Authorization: auth, 'Content-Type': 'application/json', ...extra}`:
      both defaults are always present, and a key of extra replaces them. */
  function JsonHeaders(identity: IdentityOptions, extra: map<string, string>): (h: map<string, string>)
    ensures h.Keys == extra.Keys + {AuthorizationHeader, ContentTypeHeader}
    ensures forall k :: k in extra ==> h[k] == extra[k]
    ensures AuthorizationHeader !in extra ==> h[AuthorizationHeader] == AuthorizationValue(identity)
    ensures ContentTypeHeader !in extra ==> h[ContentTypeHeader] == JsonContentType
  {
    map[AuthorizationHeader := AuthorizationValue(identity), ContentTypeHeader := JsonContentType] + extra
  }

  datatype Method = Get | Post | Put | Delete

  /** The `init` argument of fetch; its `method` is `verb` here, and an omitted method is GET. */
  datatype Init = Init(verb: Method, headers: map<string, string>, body: Option<Value>)

  const PlainInit := Init(Get, map[], None)

  datatype Request = Request(url: string, init: Init)

  /** A response body: JSON that decodes to a value, or anything else
      (including the empty body of a 204). */
  datatype Body = Json(value: Value) | Unparseable

  datatype Response = Response(status: int, body: Body) {
    /** Response.ok: a status in the range 200-299. */
    predicate IsOk() {
      200 <= status <= 299
    }
  }

  /** What awaiting fetch gives: a response, or a rejection (DNS failure,
      refused connection, ...). */
  datatype FetchOutcome = Responded(response: Response) | TransportFailure

  /** Response.json(). */
  function DecodeJson(b: Body): Result<Value, Error> {
    match b
    case Json(v) => Ok(v)
    case Unparseable => Err(SyntaxError)
  }

  const DefaultBaseUrl := "https://cloud.liquid-state.com/"
  const DefaultBaseS3Url := "https://s3.ap-southeast-2.amazonaws.com/liquidstate-prod-apsoutheast2/"

  /** The `options` argument of the admin clients (IOptions). */
  datatype Options = Options(baseUrl: Option<string>, baseS3Url: Option<string>)

  const DefaultOptions := Options(Some(DefaultBaseUrl), Some(DefaultBaseS3Url))

  /** `{...defaultOptions, ...options}`: a field the caller gave replaces the default. */
  function SpreadOptions(base: Options, over: Option<Options>): Options {
    if over.None? then base
    else Options(
      if over.value.baseUrl.Some? then over.value.baseUrl else base.baseUrl,
      if over.value.baseS3Url.Some? then over.value.baseS3Url else base.baseS3Url)
  }

  /** The options an admin client keeps after its constructor: the caller's
      base URLs where they are non-empty, the defaults otherwise, so that both
      are always non-empty. */
  function WithDefaults(user: Option<Options>): (o: Options)
    ensures o.baseUrl.Some? && o.baseUrl.value != ""
    ensures o.baseS3Url.Some? && o.baseS3Url.value != ""
    ensures o.baseUrl == if user.Some? && TruthyText(user.value.baseUrl) then user.value.baseUrl else Some(DefaultBaseUrl)
    ensures o.baseS3Url == if user.Some? && TruthyText(user.value.baseS3Url) then user.value.baseS3Url else Some(DefaultBaseS3Url)
  {
    var merged := SpreadOptions(DefaultOptions, user);
    Options(
      if TruthyText(merged.baseUrl) then merged.baseUrl else Some(DefaultBaseUrl),
      if TruthyText(merged.baseS3Url) then merged.baseS3Url else Some(DefaultBaseS3Url))
  }
}
