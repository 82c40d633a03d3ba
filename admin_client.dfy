/** UbiquityAdmin of src/admin-client.ts: the v1 admin client. Every endpoint
    is a GET of `baseUrl + cleanPath(path)` carrying only an Authorization
    header; a response that is not ok is rejected. */
module V1Admin {
  import opened Js
  import opened Http

  /** `number | string | { id: number }`, as the endpoints accept it. */
  datatype Identifier = NumId(n: int) | TextId(s: string) | ObjectId(id: int)

  function IdentifierToJs(i: Identifier): Value {
    match i
    case NumId(n) => Num(n)
    case TextId(s) => Str(s)
    case ObjectId(id) => Obj(map["id" := Num(id)])
  }

  /** idFrom: the `id` property when it is truthy, the value itself
      otherwise, turned into a string. */
  function IdFrom(id: Value): (r: Result<string, Error>)
    ensures r.Err? <==> id.Undefined? || id.Null?
    ensures r.Err? ==> r.error == TypeError
    ensures id.Obj? && "id" in id.props && Truthy(id.props["id"]) ==> r == Ok(ToStr(id.props["id"]))
    ensures id.Num? || id.Str? ==> r == Ok(ToStr(id))
  {
    match Js.Get(id, "id")
    case Err(e) => Err(e)
    case Ok(inner) => if Truthy(inner) then Ok(ToStr(inner)) else Ok(ToStr(id))
  }

  /** A whole object is taken for its id, except that an id of 0 is falsy,
      so the object itself is stringified instead. */
  lemma IdentifierForms(n: int, s: string)
    ensures IdFrom(IdentifierToJs(NumId(n))) == Ok(IntToDecimal(n))
    ensures IdFrom(IdentifierToJs(TextId(s))) == Ok(s)
    ensures n != 0 ==> IdFrom(IdentifierToJs(ObjectId(n))) == IdFrom(IdentifierToJs(NumId(n)))
    ensures IdFrom(IdentifierToJs(ObjectId(0))) == Ok("[object Object]")
  {
  }

  /** The path with its whole leading run of `/` removed. */
  function StripLeadingSlashes(path: string): (r: string)
    ensures |r| <= |path| && r == path[|path| - |r|..]
    ensures r == [] || r[0] != '/'
    ensures forall i :: 0 <= i < |path| - |r| ==> path[i] == '/'
    decreases |path|
  {
    if |path| > 0 && path[0] == '/' then
      var r := StripLeadingSlashes(path[1..]);
      assert forall i :: 1 <= i < |path| - |r| ==> path[i] == path[1..][i - 1];
      r
    else path
  }

  /** The characterisation above fixes the result: removing any other
      number of leading characters either leaves a `/` in front or removes
      a character that is not `/`. */
  lemma {:induction false} StripIsMaximalRun(path: string, k: nat)
    requires k <= |path|
    requires forall i :: 0 <= i < k ==> path[i] == '/'
    requires k == |path| || path[k] != '/'
    ensures StripLeadingSlashes(path) == path[k..]
    decreases k
  {
    if k > 0 {
      StripIsMaximalRun(path[1..], k - 1);
      assert path[1..][k - 1..] == path[k..];
    }
  }

  /** A path that does not start with `/` is kept as it is, and stripping
      twice is stripping once. */
  lemma {:induction false} StripFixesCleanPaths(path: string)
    ensures path == [] || path[0] != '/' ==> StripLeadingSlashes(path) == path
    ensures StripLeadingSlashes(StripLeadingSlashes(path)) == StripLeadingSlashes(path)
  {
    var r := StripLeadingSlashes(path);
    StripIsMaximalRun(r, 0);
    if path == [] || path[0] != '/' {
      StripIsMaximalRun(path, 0);
    }
  }

  /** cleanPath: drop the first character while the path starts with `/`. */
  method CleanPath(path: string) returns (final: string)
    ensures final == StripLeadingSlashes(path)
  {
    final := path;
    while StartsWith(final, "/")
      invariant StripLeadingSlashes(final) == StripLeadingSlashes(path)
      decreases |final|
    {
      StripOneSlash(final);
      final := final[1..];
    }
    StripNoSlash(final);
  }

  /** One step of cleanPath's loop keeps the stripped path. */
  lemma {:induction false} StripOneSlash(s: string)
    requires StartsWith(s, "/")
    ensures StripLeadingSlashes(s) == StripLeadingSlashes(s[1..])
  {
    assert s[..1] == "/" && s[0] == '/';
  }

  /** Where cleanPath's loop stops, nothing is left to strip. */
  lemma {:induction false} StripNoSlash(s: string)
    requires !StartsWith(s, "/")
    ensures StripLeadingSlashes(s) == s
  {
    if |s| > 0 {
      assert s[..1] == [s[0]];
    }
  }

  /** After `request` awaited fetch: a rejected fetch propagates, a response
      that is not ok becomes the "Invalid ubiquity request" error, and an ok
      response is handed back. */
  function CheckResponse(o: FetchOutcome): (r: Result<Response, Error>)
    ensures r.Ok? <==> o.Responded? && o.response.IsOk()
    ensures r.Ok? ==> r.value == o.response
    ensures o.TransportFailure? ==> r == Err(FetchRejected)
    ensures o.Responded? && !o.response.IsOk() ==> r == Err(InvalidRequest)
  {
    match o
    case TransportFailure => Err(FetchRejected)
    case Responded(resp) => if resp.IsOk() then Ok(resp) else Err(InvalidRequest)
  }

  /** `resp.json()` on the checked response. */
  function ReadJson(o: FetchOutcome): (r: Result<Value, Error>)
    ensures r.Ok? <==> o.Responded? && o.response.IsOk() && o.response.body.Json?
    ensures r.Ok? ==> o.response.body == Json(r.value)
    ensures CheckResponse(o).Err? ==> r == Err(CheckResponse(o).error)
    ensures o.Responded? && o.response.IsOk() && o.response.body.Unparseable? ==> r == Err(SyntaxError)
  {
    match CheckResponse(o)
    case Err(e) => Err(e)
    case Ok(resp) => DecodeJson(resp.body)
  }

  const AppsPath := "api/core/v1/apps/"

  /** The path of appDetails. */
  function AppDetailsPath(app: Value): (r: Result<string, Error>)
    ensures r.Err? <==> IdFrom(app).Err?
    ensures r.Ok? ==> r.value == AppsPath + IdFrom(app).value + "/"
    ensures r.Ok? ==> StartsWith(r.value, AppsPath)
  {
    match IdFrom(app)
    case Err(e) => Err(e)
    case Ok(id) => Ok(AppsPath + id + "/")
  }

  /** The path of documents. */
  function DocumentsPath(app: Value): (r: Result<string, Error>)
    ensures r.Err? <==> IdFrom(app).Err?
    ensures r.Ok? ==> r.value == AppsPath + IdFrom(app).value + "/documents/"
    ensures r.Ok? ==> StartsWith(r.value, AppsPath)
  {
    match IdFrom(app)
    case Err(e) => Err(e)
    case Ok(id) => Ok(AppsPath + id + "/documents/")
  }

  /** The path of documentVersions; the app is read before the document. */
  function DocumentVersionsPath(app: Value, document: Value): (r: Result<string, Error>)
    ensures r.Err? <==> IdFrom(app).Err? || IdFrom(document).Err?
    ensures IdFrom(app).Err? ==> r == Err(IdFrom(app).error)
    ensures r.Ok? ==> r.value == AppsPath + IdFrom(app).value + "/documents/" + IdFrom(document).value + "/versions/"
    ensures r.Ok? ==> StartsWith(r.value, AppsPath)
  {
    match IdFrom(app)
    case Err(e) => Err(e)
    case Ok(a) =>
      match IdFrom(document)
      case Err(e) => Err(e)
      case Ok(d) => Ok(AppsPath + a + "/documents/" + d + "/versions/")
  }

  /** The path of pages: `documentVersion.links.pages`, which cleanPath then
      reads as a string (a TypeError when it is not one). */
  function PagesPath(documentVersion: Value): (r: Result<string, Error>)
    ensures r.Ok? <==> documentVersion.Obj? && "links" in documentVersion.props
                       && documentVersion.props["links"].Obj?
                       && "pages" in documentVersion.props["links"].props
                       && documentVersion.props["links"].props["pages"].Str?
    ensures r.Ok? ==> r.value == documentVersion.props["links"].props["pages"].s
    ensures r.Err? ==> r.error == TypeError
  {
    match Js.Get(documentVersion, "links")
    case Err(e) => Err(e)
    case Ok(links) =>
      match Js.Get(links, "pages")
      case Err(e) => Err(e)
      case Ok(Str(p)) => Ok(p)
      case Ok(_) => Err(TypeError)
  }

  /** Every path the client builds itself starts with `api/core/v1/apps/`,
      so cleanPath keeps it and the URL is the base URL followed by that very
      path. */
  lemma ApiPathsAreClean(path: string)
    requires StartsWith(path, AppsPath)
    ensures StripLeadingSlashes(path) == path
  {
    assert path[0] == AppsPath[0] == 'a';
    StripIsMaximalRun(path, 0);
  }

  /** A page link given with leading slashes reaches the same URL as the
      link without them. */
  lemma PagesIgnoreLeadingSlashes(link: string)
    ensures StripLeadingSlashes("/" + link) == StripLeadingSlashes(link)
  {
    assert ("/" + link)[1..] == link;
  }

  class UbiquityAdmin {
    const identity: IdentityOptions
    var options: Options

    constructor (identity: IdentityOptions, options: Option<Options>)
      ensures this.identity == identity
      ensures this.options == WithDefaults(options)
    {
      this.identity := identity;
      new;
      if options.None? {
        this.options := DefaultOptions;  // overwritten on the next line, as in the source
      }
      this.options := SpreadOptions(DefaultOptions, options);
      if !TruthyText(this.options.baseUrl) {
        this.options := this.options.(baseUrl := Some(DefaultBaseUrl));
      }
      if !TruthyText(this.options.baseS3Url) {
        this.options := this.options.(baseS3Url := Some(DefaultBaseS3Url));
      }
    }

    /** The request `request(path)` hands to fetch: a GET of the base URL
        followed by the cleaned path, whose only header is Authorization. */
    function RequestFor(path: string): (req: Request)
      reads this
      ensures req.url == OptText(options.baseUrl) + StripLeadingSlashes(path)
      ensures req.init.verb == Get && req.init.body.None?
      ensures req.init.headers.Keys == {AuthorizationHeader}
      ensures AuthorizationHeader in req.init.headers
              && req.init.headers[AuthorizationHeader] == AuthorizationValue(identity)
    {
      Http.Request(OptText(options.baseUrl) + StripLeadingSlashes(path),
              Init(Get, map[AuthorizationHeader := AuthorizationValue(identity)], None))
    }

    /** request(path): one fetch; resolves to the response when it is ok. */
    method Request(path: string, fetch: Request -> FetchOutcome) returns (sent: Request, r: Result<Response, Error>)
      ensures sent == RequestFor(path)
      ensures r == CheckResponse(fetch(sent))
    {
      var auth := AuthorizationValue(identity);
      var clean := CleanPath(path);
      sent := Http.Request(OptText(options.baseUrl) + clean, Init(Get, map[AuthorizationHeader := auth], None));
      var outcome := fetch(sent);
      if outcome.TransportFailure? {
        r := Err(FetchRejected);
      } else if !outcome.response.IsOk() {
        r := Err(InvalidRequest);
      } else {
        r := Ok(outcome.response);
      }
    }

    /** An endpoint: the JSON of the response to its path, or the error
        thrown while building the path (then nothing is fetched). */
    method Endpoint(path: Result<string, Error>, fetch: Request -> FetchOutcome) returns (r: Result<Value, Error>)
      ensures path.Err? ==> r == Err(path.error)
      ensures path.Ok? ==> r == ReadJson(fetch(RequestFor(path.value)))
    {
      if path.Err? {
        return Err(path.error);
      }
      var _, resp := Request(path.value, fetch);
      if resp.Err? {
        return Err(resp.error);
      }
      r := DecodeJson(resp.value.body);
    }

    /** apps(). */
    method Apps(fetch: Request -> FetchOutcome) returns (r: Result<Value, Error>)
      ensures r == ReadJson(fetch(RequestFor(AppsPath)))
    {
      r := Endpoint(Ok(AppsPath), fetch);
    }

    /** appDetails(app). */
    method AppDetails(app: Value, fetch: Request -> FetchOutcome) returns (r: Result<Value, Error>)
      ensures AppDetailsPath(app).Err? ==> r == Err(TypeError)
      ensures AppDetailsPath(app).Ok? ==> r == ReadJson(fetch(RequestFor(AppDetailsPath(app).value)))
    {
      r := Endpoint(AppDetailsPath(app), fetch);
    }

    /** documents(app). */
    method Documents(app: Value, fetch: Request -> FetchOutcome) returns (r: Result<Value, Error>)
      ensures DocumentsPath(app).Err? ==> r == Err(TypeError)
      ensures DocumentsPath(app).Ok? ==> r == ReadJson(fetch(RequestFor(DocumentsPath(app).value)))
    {
      r := Endpoint(DocumentsPath(app), fetch);
    }

    /** documentVersions(app, document). */
    method DocumentVersions(app: Value, document: Value, fetch: Request -> FetchOutcome) returns (r: Result<Value, Error>)
      ensures DocumentVersionsPath(app, document).Err? ==> r == Err(TypeError)
      ensures DocumentVersionsPath(app, document).Ok? ==>
        r == ReadJson(fetch(RequestFor(DocumentVersionsPath(app, document).value)))
    {
      r := Endpoint(DocumentVersionsPath(app, document), fetch);
    }

    /** pages(documentVersion): the link it carries, cleaned like any path. */
    method Pages(documentVersion: Value, fetch: Request -> FetchOutcome) returns (r: Result<Value, Error>)
      ensures PagesPath(documentVersion).Err? ==> r == Err(TypeError)
      ensures PagesPath(documentVersion).Ok? ==> r == ReadJson(fetch(RequestFor(PagesPath(documentVersion).value)))
    {
      r := Endpoint(PagesPath(documentVersion), fetch);
    }
  }
}
