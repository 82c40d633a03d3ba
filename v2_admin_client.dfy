/** UbiquityV2AdminClient of src/v2/admin-client.ts: the admin entry point of
    the v2 API, which hands its lazily created executor to the content item
    APIs. */
module V2AdminClient {
  import opened Js
  import opened Http
  import opened V2AdminExecutor
  import ContentItemApi

  class UbiquityV2AdminClient {
    const identity: IdentityOptions
    var options: Options
    var cachedExecutor: RequestExecutor?

    /** The executor, once created, carries the client's own identity and
        options: the options are private and set only by the constructor. */
    predicate Valid()
      reads this
    {
      cachedExecutor != null ==> cachedExecutor.identity == identity && cachedExecutor.options == options
    }

    constructor (identity: IdentityOptions, options: Option<Options>)
      ensures this.identity == identity
      ensures this.options == WithDefaults(options)
      ensures cachedExecutor == null
      ensures Valid()
    {
      this.identity := identity;
      cachedExecutor := null;
      new;
      if options.None? {
        this.options := DefaultOptions;  // overwritten on the next line, as in the source
      }
      this.options := SpreadOptions(DefaultOptions, options);
      if !TruthyText(this.options.baseUrl) {
        this.options := this.options.(baseUrl := Some(DefaultBaseUrl));
      }
      if !TruthyText(this.options.baseS3Url) {
        this.options := this.options.(baseS3Url := Some(DefaultBaseS3Url));
      }
    }

    /** The executor getter: created on first use, then shared by every call
        and every content item API this client hands out. */
    method Executor() returns (e: RequestExecutor)
      requires Valid()
      modifies this`cachedExecutor
      ensures Valid()
      ensures cachedExecutor != null && cachedExecutor.identity == identity && cachedExecutor.options == options
      ensures old(cachedExecutor) != null ==> e == old(cachedExecutor)
      ensures old(cachedExecutor) == null ==> fresh(e) && e.identity == identity && e.options == options
      ensures cachedExecutor == e
    {
      if cachedExecutor == null {
        cachedExecutor := new RequestExecutor(identity, options);
      }
      e := cachedExecutor;
    }

    /** listApps: GET `api/v2/apps/` with the default init. */
    method ListApps(fetch: Request -> FetchOutcome) returns (sent: Request, r: Result<Value, Error>)
      requires Valid()
      modifies this`cachedExecutor
      ensures Valid()
      ensures cachedExecutor != null && cachedExecutor.identity == identity && cachedExecutor.options == options
      ensures cachedExecutor != null && (old(cachedExecutor) != null ==> cachedExecutor == old(cachedExecutor))
      ensures sent == cachedExecutor.FetchedRequest(cachedExecutor.Url("api/v2/apps/"), None)
      ensures r == Classify(fetch(sent))
    {
      var e := Executor();
      var url := e.Url("api/v2/apps/");
      sent := e.FetchedRequest(url, None);
      r := e.Execute(url, None, fetch);
    }

    /** getApp: GET `api/v2/apps/<token>/`. */
    method GetApp(token: string, fetch: Request -> FetchOutcome) returns (sent: Request, r: Result<Value, Error>)
      requires Valid()
      modifies this`cachedExecutor
      ensures Valid()
      ensures cachedExecutor != null && cachedExecutor.identity == identity && cachedExecutor.options == options
      ensures cachedExecutor != null && (old(cachedExecutor) != null ==> cachedExecutor == old(cachedExecutor))
      ensures sent == cachedExecutor.FetchedRequest(cachedExecutor.Url("api/v2/apps/" + token + "/"), None)
      ensures r == Classify(fetch(sent))
    {
      var e := Executor();
      var url := e.Url("api/v2/apps/" + token + "/");
      sent := e.FetchedRequest(url, None);
      r := e.Execute(url, None, fetch);
    }

    /** forms(appOrToken): a content item API over the forms collection. */
    method Forms(appOrToken: Value) returns (r: Result<ContentItemApi.Api, Error>)
      requires Valid()
      modifies this`cachedExecutor
      ensures Valid()
      ensures cachedExecutor != null && cachedExecutor.identity == identity && cachedExecutor.options == options
      ensures cachedExecutor != null && (old(cachedExecutor) != null ==> cachedExecutor == old(cachedExecutor))
      ensures r == ContentItemApi.New(cachedExecutor, ContentItemApi.Collection.Forms, appOrToken)
    {
      var e := Executor();
      r := ContentItemApi.New(e, ContentItemApi.Collection.Forms, appOrToken);
    }

    /** messages(appOrToken): a content item API over the messages collection. */
    method Messages(appOrToken: Value) returns (r: Result<ContentItemApi.Api, Error>)
      requires Valid()
      modifies this`cachedExecutor
      ensures Valid()
      ensures cachedExecutor != null && cachedExecutor.identity == identity && cachedExecutor.options == options
      ensures cachedExecutor != null && (old(cachedExecutor) != null ==> cachedExecutor == old(cachedExecutor))
      ensures r == ContentItemApi.New(cachedExecutor, ContentItemApi.Collection.Messages, appOrToken)
    {
      var e := Executor();
      r := ContentItemApi.New(e, ContentItemApi.Collection.Messages, appOrToken);
    }

    /** weblinks(appOrToken): a content item API over the weblinks collection. */
    method Weblinks(appOrToken: Value) returns (r: Result<ContentItemApi.Api, Error>)
      requires Valid()
      modifies this`cachedExecutor
      ensures Valid()
      ensures cachedExecutor != null && cachedExecutor.identity == identity && cachedExecutor.options == options
      ensures cachedExecutor != null && (old(cachedExecutor) != null ==> cachedExecutor == old(cachedExecutor))
      ensures r == ContentItemApi.New(cachedExecutor, ContentItemApi.Collection.Weblinks, appOrToken)
    {
      var e := Executor();
      r := ContentItemApi.New(e, ContentItemApi.Collection.Weblinks, appOrToken);
    }
  }
}
