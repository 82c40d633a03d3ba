/** The RequestExecutor of src/v2/admin-client.ts, the one ContentItemApi and
    the paginator use. It differs from the app client's executor in two
    ways: url takes no query, and execute has no 204 case. */
module V2AdminExecutor {
  import opened Js
  import opened Http
  import V2Client

  class RequestExecutor {
    const identity: IdentityOptions
    const options: Options

    constructor (identity: IdentityOptions, options: Options)
      ensures this.identity == identity && this.options == options
    {
      this.identity := identity;
      this.options := options;
    }

    /** url(u): the base URL immediately followed by u. */
    function Url(path: string): (u: string)
      ensures StartsWith(u, OptText(options.baseUrl)) && EndsWith(u, path)
      ensures |u| == |OptText(options.baseUrl)| + |path|
    {
      OptText(options.baseUrl) + path
    }

    /** What execute hands to fetch: the caller's init, or, when it is
        omitted, a GET carrying the JSON headers. */
    function FetchedRequest(url: string, init: Option<Init>): (req: Request)
      ensures req.url == url
      ensures init.Some? ==> req.init == init.value
      ensures init.None? ==> req.init.verb == Get && req.init.body.None?
      ensures init.None? ==> req.init.headers.Keys == {AuthorizationHeader, ContentTypeHeader}
      ensures init.None? ==> AuthorizationHeader in req.init.headers && req.init.headers[AuthorizationHeader] == AuthorizationValue(identity)
      ensures init.None? ==> ContentTypeHeader in req.init.headers && req.init.headers[ContentTypeHeader] == JsonContentType
    {
      Request(url, if init.Some? then init.value else Init(Get, JsonHeaders(identity, map[]), None))
    }

    /** execute(url, init): one fetch, whose outcome Classify turns into the
        result. */
    function Execute(url: string, init: Option<Init>, fetch: Request -> FetchOutcome): Result<Value, Error> {
      Classify(fetch(FetchedRequest(url, init)))
    }
  }

  /** The try/catch of this execute: every ok response goes to r.json(); a
      non-ok response and a transport failure both become NetworkError. A
      body that does not parse escapes the catch as a SyntaxError, because
      the decoding is returned without being awaited. */
  function Classify(o: FetchOutcome): (r: Result<Value, Error>)
    ensures r == Err(NetworkError) <==> o.TransportFailure? || !o.response.IsOk()
    ensures r.Ok? <==> o.Responded? && o.response.IsOk() && o.response.body.Json?
    ensures r.Ok? ==> o.response.body == Json(r.value)
    ensures r.Err? ==> r.error == NetworkError || r.error == SyntaxError
  {
    match o
    case TransportFailure => Err(NetworkError)
    case Responded(resp) =>
      if !resp.IsOk() then Err(NetworkError)
      else DecodeJson(resp.body)
  }

  /** A 204 No Content reply has an empty body, which r.json() cannot parse:
      the request succeeded on the server, and execute still rejects. */
  lemma NoContentRejects()
    ensures Classify(Responded(Response(204, Unparseable))) == Err(SyntaxError)
    ensures V2Client.Classify(Responded(Response(204, Unparseable))) == Ok(Undefined)
  {
  }

  /** The two executors classify every outcome alike except an ok 204. */
  lemma AgreesWithAppExecutorExceptNoContent(o: FetchOutcome)
    ensures o.TransportFailure? || o.response.status != 204 ==> Classify(o) == V2Client.Classify(o)
  {
  }
}
