/** src/v2/client.ts: the app-facing v2 client, UbiquityV2Client, and the
    request executor it creates lazily. */
module V2Client {
  import opened Js
  import opened Http

  /** A query object handed to query-string's `stringify`. */
  type Query = map<string, Value>

  class RequestExecutor {
    const identity: IdentityOptions
    const options: Options

    constructor (identity: IdentityOptions, options: Options)
      ensures this.identity == identity && this.options == options
    {
      this.identity := identity;
      this.options := options;
    }

    /** url(u, query): the base URL, then u, then `?` and the stringified
        query when a query object is given. `stringify` stands for the
        query-string library. */
    function Url(path: string, query: Option<Query>, stringify: Query -> string): (u: string)
      ensures StartsWith(u, OptText(options.baseUrl) + path)
      ensures query.None? ==> u == OptText(options.baseUrl) + path
      ensures query.Some? ==> EndsWith(u, "?" + stringify(query.value))
      ensures query.Some? ==> |u| == |OptText(options.baseUrl) + path| + 1 + |stringify(query.value)|
    {
      OptText(options.baseUrl) + path + (if query.Some? then "?" + stringify(query.value) else "")
    }

    /** What execute hands to fetch: the caller's init, or, when it is
        omitted, a GET carrying the JSON headers. */
    function FetchedRequest(url: string, init: Option<Init>): (req: Request)
      ensures req.url == url
      ensures init.Some? ==> req.init == init.value
      ensures init.None? ==> req.init.verb == Get && req.init.body.None?
      ensures init.None? ==> req.init.headers.Keys == {AuthorizationHeader, ContentTypeHeader}
      ensures init.None? ==> AuthorizationHeader in req.init.headers && req.init.headers[AuthorizationHeader] == AuthorizationValue(identity)
      ensures init.None? ==> ContentTypeHeader in req.init.headers && req.init.headers[ContentTypeHeader] == JsonContentType
    {
      Request(url, if init.Some? then init.value else Init(Get, JsonHeaders(identity, map[]), None))
    }

    /** execute(url, init): one fetch, whose outcome Classify turns into the
        result. */
    function Execute(url: string, init: Option<Init>, fetch: Request -> FetchOutcome): Result<Value, Error> {
      Classify(fetch(FetchedRequest(url, init)))
    }
  }

  /** The try/catch of execute: an ok 204 gives undefined without reading the
      body; any other ok response gives its JSON; a non-ok response and a
      transport failure both become NetworkError, because the catch also
      swallows the UbiquityError thrown for the non-ok response. The JSON
      decoding is returned, not awaited, inside the try, so a body that does
      not parse escapes the catch as a SyntaxError. */
  function Classify(o: FetchOutcome): (r: Result<Value, Error>)
    ensures r == Err(NetworkError) <==> o.TransportFailure? || !o.response.IsOk()
    ensures o.Responded? && o.response.status == 204 ==> r == Ok(Undefined)
    ensures r.Ok? && r.value != Undefined ==> o.response.body == Json(r.value)
    ensures r == Err(SyntaxError) <==> o.Responded? && o.response.IsOk() && o.response.status != 204 && o.response.body.Unparseable?
    ensures r.Err? ==> r.error == NetworkError || r.error == SyntaxError
  {
    match o
    case TransportFailure => Err(NetworkError)
    case Responded(resp) =>
      if !resp.IsOk() then Err(NetworkError)
      else if resp.status == 204 then Ok(Undefined)
      else DecodeJson(resp.body)
  }

  /** A non-ok response is reported exactly like an unreachable server: a
      404 and a 500 give the same NetworkError, and the status is lost. */
  lemma NonOkResponseLosesStatus(b: Body)
    ensures Classify(Responded(Response(404, b))) == Classify(TransportFailure)
    ensures Classify(Responded(Response(404, b))) == Classify(Responded(Response(500, b)))
  {
  }

  /** The classification the UbiquityError class was written for: a non-ok
      response is an ApiError carrying its status, and only a transport
      failure is a NetworkError; everything else is as in Classify. */
  function ClassifyIntended(o: FetchOutcome): (r: Result<Value, Error>)
    ensures o.Responded? && !o.response.IsOk() ==> r == Err(ApiError(o.response.status))
    ensures r == Err(NetworkError) <==> o.TransportFailure?
    ensures o.TransportFailure? || o.response.IsOk() ==> r == Classify(o)
  {
    match o
    case TransportFailure => Err(NetworkError)
    case Responded(resp) =>
      if !resp.IsOk() then Err(ApiError(resp.status))
      else Classify(o)
  }

  /** The `{version}` query of getForm and getWeblink: present only for a
      truthy version, so version 0 sends no query at all. */
  function VersionQuery(version: Option<int>): (q: Option<Query>)
    ensures q.Some? <==> version.Some? && version.value != 0
    ensures q.Some? ==> q.value == map["version" := Num(version.value)]
  {
    if version.Some? && Truthy(Num(version.value)) then Some(map["version" := Num(version.value)]) else None
  }

  /** The query of a URL built with a query starts right after the path:
      the first `?` of the URL is the one Url inserts, as long as the base
      URL and the path have none. */
  lemma QueryFollowsPath(e: RequestExecutor, path: string, q: Query, stringify: Query -> string)
    requires '?' !in OptText(e.options.baseUrl) + path
    ensures IndexOf(e.Url(path, Some(q), stringify), "?") == Some(|OptText(e.options.baseUrl) + path|)
    ensures e.Url(path, Some(q), stringify)[|OptText(e.options.baseUrl) + path| + 1..] == stringify(q)
  {
    var a := OptText(e.options.baseUrl) + path;
    assert e.Url(path, Some(q), stringify) == a + "?" + stringify(q);
    FirstMatchAfter(a, "?", stringify(q));
  }

  class UbiquityV2Client {
    const identity: IdentityOptions
    var options: Options
    var cachedExecutor: RequestExecutor?

    /** The executor, once created, carries the client's own identity and
        options: the options are private and set only by the constructor. */
    predicate Valid()
      reads this
    {
      cachedExecutor != null ==> cachedExecutor.identity == identity && cachedExecutor.options == options
    }

    constructor (identity: IdentityOptions, options: Option<Options>)
      ensures this.identity == identity
      ensures this.options == WithDefaults(options)
      ensures cachedExecutor == null
      ensures Valid()
    {
      this.identity := identity;
      cachedExecutor := null;
      new;
      if options.None? {
        this.options := DefaultOptions;  // overwritten on the next line, as in the source
      }
      this.options := SpreadOptions(DefaultOptions, options);
      if !TruthyText(this.options.baseUrl) {
        this.options := this.options.(baseUrl := Some(DefaultBaseUrl));
      }
      if !TruthyText(this.options.baseS3Url) {
        this.options := this.options.(baseS3Url := Some(DefaultBaseS3Url));
      }
    }

    /** The executor getter: created on first use from the client's identity
        and options, then the same instance every time. */
    method Executor() returns (e: RequestExecutor)
      requires Valid()
      modifies this`cachedExecutor
      ensures Valid()
      ensures cachedExecutor != null && cachedExecutor.identity == identity && cachedExecutor.options == options
      ensures old(cachedExecutor) != null ==> e == old(cachedExecutor)
      ensures old(cachedExecutor) == null ==> fresh(e) && e.identity == identity && e.options == options
      ensures cachedExecutor == e
    {
      if cachedExecutor == null {
        cachedExecutor := new RequestExecutor(identity, options);
      }
      e := cachedExecutor;
    }

    /** listApps: GET `api/v2/apps/`. */
    method ListApps(stringify: Query -> string, fetch: Request -> FetchOutcome) returns (sent: Request, r: Result<Value, Error>)
      requires Valid()
      modifies this`cachedExecutor
      ensures Valid()
      ensures cachedExecutor != null && cachedExecutor.identity == identity && cachedExecutor.options == options
      ensures cachedExecutor != null && (old(cachedExecutor) != null ==> cachedExecutor == old(cachedExecutor))
      ensures sent == cachedExecutor.FetchedRequest(cachedExecutor.Url("api/v2/apps/", None, stringify), None)
      ensures r == Classify(fetch(sent))
    {
      var e := Executor();
      var url := e.Url("api/v2/apps/", None, stringify);
      sent := e.FetchedRequest(url, None);
      r := e.Execute(url, None, fetch);
    }

    /** getApp: GET `api/v2/apps/<token>/`. */
    method GetApp(token: string, stringify: Query -> string, fetch: Request -> FetchOutcome) returns (sent: Request, r: Result<Value, Error>)
      requires Valid()
      modifies this`cachedExecutor
      ensures Valid()
      ensures cachedExecutor != null && cachedExecutor.identity == identity && cachedExecutor.options == options
      ensures cachedExecutor != null && (old(cachedExecutor) != null ==> cachedExecutor == old(cachedExecutor))
      ensures sent == cachedExecutor.FetchedRequest(cachedExecutor.Url("api/v2/apps/" + token + "/", None, stringify), None)
      ensures r == Classify(fetch(sent))
    {
      var e := Executor();
      var url := e.Url("api/v2/apps/" + token + "/", None, stringify);
      sent := e.FetchedRequest(url, None);
      r := e.Execute(url, None, fetch);
    }

    /** getForm: the content-lookup URL of a form, with a version query only
        for a truthy version. */
    method GetForm(token: string, id: string, version: Option<int>, stringify: Query -> string,
                   fetch: Request -> FetchOutcome) returns (sent: Request, r: Result<Value, Error>)
      requires Valid()
      modifies this`cachedExecutor
      ensures Valid()
      ensures cachedExecutor != null && cachedExecutor.identity == identity && cachedExecutor.options == options
      ensures cachedExecutor != null && (old(cachedExecutor) != null ==> cachedExecutor == old(cachedExecutor))
      ensures sent == cachedExecutor.FetchedRequest(
        cachedExecutor.Url("api/v2/apps/" + token + "/content-lookup/forms/" + id + "/", VersionQuery(version), stringify), None)
      ensures r == Classify(fetch(sent))
    {
      var e := Executor();
      var url := e.Url("api/v2/apps/" + token + "/content-lookup/forms/" + id + "/", VersionQuery(version), stringify);
      sent := e.FetchedRequest(url, None);
      r := e.Execute(url, None, fetch);
    }

    /** getWeblink: the same for a weblink. */
    method GetWeblink(token: string, id: string, version: Option<int>, stringify: Query -> string,
                      fetch: Request -> FetchOutcome) returns (sent: Request, r: Result<Value, Error>)
      requires Valid()
      modifies this`cachedExecutor
      ensures Valid()
      ensures cachedExecutor != null && cachedExecutor.identity == identity && cachedExecutor.options == options
      ensures cachedExecutor != null && (old(cachedExecutor) != null ==> cachedExecutor == old(cachedExecutor))
      ensures sent == cachedExecutor.FetchedRequest(
        cachedExecutor.Url("api/v2/apps/" + token + "/content-lookup/weblinks/" + id + "/", VersionQuery(version), stringify), None)
      ensures r == Classify(fetch(sent))
    {
      var e := Executor();
      var url := e.Url("api/v2/apps/" + token + "/content-lookup/weblinks/" + id + "/", VersionQuery(version), stringify);
      sent := e.FetchedRequest(url, None);
      r := e.Execute(url, None, fetch);
    }
  }
}
