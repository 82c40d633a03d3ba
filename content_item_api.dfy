/** src/v2/content-item-api.ts: the forms, messages and weblinks endpoints of
    one app. Every endpoint is an `executor.execute(url, init)` call; the
    model gives the call each endpoint makes, or the error thrown while
    building its URL. */
module ContentItemApi {
  import opened Js
  import opened Http
  import opened V2Types
  import opened V2Utils
  import opened V2AdminExecutor

  datatype Collection = Forms | Messages | Weblinks

  function CollectionKey(c: Collection): string {
    match c
    case Forms => "forms"
    case Messages => "messages"
    case Weblinks => "weblinks"
  }

  /** The collection URL an App object carries for c. */
  function AppCollectionUrl(a: App, c: Collection): string {
    match c
    case Forms => a.forms
    case Messages => a.messages
    case Weblinks => a.weblinks
  }

  /** A ContentItemApi object: its executor, its collection, and the app (or
      app token) it was created for. */
  datatype Api = Api(executor: RequestExecutor, name: Collection, appOrToken: Value)

  /** An `executor.execute(url, init)` call; init is None when omitted. */
  datatype Call = Call(url: string, init: Option<Init>)

  /** The constructor: it throws only when appOrToken is undefined (null is
      accepted, and fails later when a URL is built). */
  function New(executor: RequestExecutor, name: Collection, appOrToken: Value): (r: Result<Api, Error>)
    ensures r.Err? <==> appOrToken.Undefined?
    ensures r.Err? ==> r.error == AppUndefined
    ensures r.Ok? ==> r.value.executor == executor && r.value.name == name && r.value.appOrToken == appOrToken
  {
    if appOrToken.Undefined? then Err(AppUndefined) else Ok(Api(executor, name, appOrToken))
  }

  /** The collection URL built from an app token:
      `api/v2/apps/<token>/<collection>/` on the executor's base URL. */
  function TokenCollectionUrl(e: RequestExecutor, token: string, c: Collection): (u: string)
    ensures StartsWith(u, OptText(e.options.baseUrl) + "api/v2/apps/" + token + "/")
    ensures EndsWith(u, "/" + CollectionKey(c) + "/")
  {
    var path := "api/v2/apps/" + token + "/" + CollectionKey(c) + "/";
    TokenPathEnds(OptText(e.options.baseUrl), token, CollectionKey(c));
    e.Url(path)
  }

  lemma {:induction false} TokenPathEnds(base: string, token: string, key: string)
    ensures StartsWith(base + ("api/v2/apps/" + token + "/" + key + "/"), base + "api/v2/apps/" + token + "/")
    ensures EndsWith(base + ("api/v2/apps/" + token + "/" + key + "/"), "/" + key + "/")
  {
    var p := "api/v2/apps/" + token;
    assert base + (p + "/" + key + "/") == (base + p + "/") + (key + "/");
  }

  /** The `baseUrl` getter: an app's own collection URL, or the URL built
      from the token. */
  function BaseUrl(api: Api): (r: Result<string, Error>)
    ensures r.Err? <==> api.appOrToken.Undefined? || api.appOrToken.Null?
    ensures IsApp(api.appOrToken) == Ok(false) ==>
      r == Ok(TokenCollectionUrl(api.executor, ToStr(api.appOrToken), api.name))
    ensures IsApp(api.appOrToken) == Ok(true) ==>
      r == Ok(if CollectionKey(api.name) in api.appOrToken.props
              then ToStr(api.appOrToken.props[CollectionKey(api.name)]) else "undefined")
  {
    match IsApp(api.appOrToken)
    case Err(e) => Err(e)
    case Ok(isApp) =>
      if isApp then
        match Js.Get(api.appOrToken, CollectionKey(api.name))
        case Err(e) => Err(e)
        case Ok(field) => Ok(ToStr(field))
      else
        Ok(TokenCollectionUrl(api.executor, ToStr(api.appOrToken), api.name))
  }

  /** contentItemUrl: the item's own `url` when it is a content item, the
      collection URL followed by the id and `/` otherwise. */
  function ContentItemUrl(api: Api, ci: Value): (r: Result<string, Error>)
    ensures r.Err? <==> ci.Undefined? || ci.Null? || (IsContentItem(ci) == Ok(false) && BaseUrl(api).Err?)
    ensures IsContentItem(ci) == Ok(false) && r.Ok? ==>
      StartsWith(r.value, BaseUrl(api).value) && EndsWith(r.value, ToStr(ci) + "/")
  {
    match IsContentItem(ci)
    case Err(e) => Err(e)
    case Ok(isItem) =>
      if isItem then
        match Js.Get(ci, "url")
        case Err(e) => Err(e)
        case Ok(u) => Ok(ToStr(u))
      else
        match BaseUrl(api)
        case Err(e) => Err(e)
        case Ok(base) => Ok(base + ToStr(ci) + "/")
  }

  /** The URL of a version under an item URL: `<itemUrl>versions/<version>/`. */
  function VersionUnder(itemUrl: string, version: Value): (u: string)
    ensures StartsWith(u, itemUrl) && EndsWith(u, "versions/" + ToStr(version) + "/")
  {
    assert itemUrl + "versions/" + ToStr(version) + "/" == itemUrl + ("versions/" + ToStr(version) + "/");
    itemUrl + "versions/" + ToStr(version) + "/"
  }

  /** contentVersionUrl: a version object's own `url`; otherwise the version
      path under the item's `url`; otherwise the version path under the
      collection URL and the item id. */
  function ContentVersionUrl(api: Api, version: Value, item: Value): (r: Result<string, Error>)
    ensures version.Undefined? || version.Null? ==> r == Err(TypeError)
    ensures IsContentVersion(version) == Ok(false) && (item.Undefined? || item.Null?) ==> r == Err(TypeError)
    ensures IsContentVersion(version) == Ok(false) && r.Ok? ==> EndsWith(r.value, "versions/" + ToStr(version) + "/")
  {
    match IsContentVersion(version)
    case Err(e) => Err(e)
    case Ok(isVersion) =>
      if isVersion then
        match Js.Get(version, "url")
        case Err(e) => Err(e)
        case Ok(u) => Ok(ToStr(u))
      else
        match IsContentItem(item)
        case Err(e) => Err(e)
        case Ok(isItem) =>
          if isItem then
            match Js.Get(item, "url")
            case Err(e) => Err(e)
            case Ok(u) => Ok(VersionUnder(ToStr(u), version))
          else
            match BaseUrl(api)
            case Err(e) => Err(e)
            case Ok(base) => Ok(VersionUnder(base + ToStr(item) + "/", version))
  }

  /** The init of every call that passes one: the given method, the JSON
      headers of the executor, and the body (JSON.stringify of it) if any. */
  function Send(api: Api, verb: Method, body: Option<Value>): Option<Init> {
    Some(Init(verb, JsonHeaders(api.executor.identity, map[]), body))
  }

  /** `${url}${suffix}` with an init, or the error that building url threw. */
  function CallAt(url: Result<string, Error>, suffix: string, init: Option<Init>): (r: Result<Call, Error>)
    ensures r.Err? <==> url.Err?
    ensures r.Ok? ==> EndsWith(r.value.url, suffix) && StartsWith(r.value.url, url.value)
    ensures r.Ok? ==> |r.value.url| == |url.value| + |suffix| && r.value.init == init
  {
    match url
    case Err(e) => Err(e)
    case Ok(u) => Ok(Call(u + suffix, init))
  }

  /** list: `nextPage || baseUrl`. */
  function List(api: Api, nextPage: Option<string>): (r: Result<Call, Error>)
    ensures TruthyText(nextPage) ==> r == Ok(Call(nextPage.value, None))
    ensures !TruthyText(nextPage) ==> r == CallAt(BaseUrl(api), "", None)
  {
    if TruthyText(nextPage) then Ok(Call(nextPage.value, None)) else CallAt(BaseUrl(api), "", None)
  }

  /** get: `${baseUrl}/${form}/`, with a slash of its own after the
      collection URL. */
  function GetItem(api: Api, form: string): (r: Result<Call, Error>)
    ensures r.Err? <==> BaseUrl(api).Err?
    ensures r.Ok? ==> r.value.init.None? && EndsWith(r.value.url, "/" + form + "/")
  {
    CallAt(BaseUrl(api), "/" + form + "/", None)
  }

  /** create: POST to the collection URL. */
  function Create(api: Api, data: Value): (r: Result<Call, Error>)
    ensures r.Err? <==> BaseUrl(api).Err?
    ensures r.Ok? ==> r.value == Call(BaseUrl(api).value, Send(api, Post, Some(data)))
  {
    CallAt(BaseUrl(api), "", Send(api, Post, Some(data)))
  }

  /** edit: PUT to the item URL. */
  function Edit(api: Api, item: Value, data: Value): (r: Result<Call, Error>)
    ensures r.Err? <==> ContentItemUrl(api, item).Err?
    ensures r.Ok? ==> r.value == Call(ContentItemUrl(api, item).value, Send(api, Put, Some(data)))
  {
    CallAt(ContentItemUrl(api, item), "", Send(api, Put, Some(data)))
  }

  /** delete: DELETE on the item URL. */
  function DeleteItem(api: Api, item: Value): (r: Result<Call, Error>)
    ensures r.Err? <==> ContentItemUrl(api, item).Err?
    ensures r.Ok? ==> r.value == Call(ContentItemUrl(api, item).value, Send(api, Delete, None))
  {
    CallAt(ContentItemUrl(api, item), "", Send(api, Delete, None))
  }

  /** makeAvailable: POST to `make_available/` under the item URL. */
  function MakeAvailable(api: Api, item: Value): (r: Result<Call, Error>)
    ensures r.Err? <==> ContentItemUrl(api, item).Err?
    ensures r.Ok? ==> r.value == Call(ContentItemUrl(api, item).value + "make_available/", Send(api, Post, None))
  {
    CallAt(ContentItemUrl(api, item), "make_available/", Send(api, Post, None))
  }

  /** makeUnavailable: POST to `make_unavailable/` under the item URL. */
  function MakeUnavailable(api: Api, item: Value): (r: Result<Call, Error>)
    ensures r.Err? <==> ContentItemUrl(api, item).Err?
    ensures r.Ok? ==> r.value == Call(ContentItemUrl(api, item).value + "make_unavailable/", Send(api, Post, None))
  {
    CallAt(ContentItemUrl(api, item), "make_unavailable/", Send(api, Post, None))
  }

  /** listVersions: `nextPage || ${itemUrl}versions/`. */
  function ListVersions(api: Api, item: Value, nextPage: Option<string>): (r: Result<Call, Error>)
    ensures TruthyText(nextPage) ==> r == Ok(Call(nextPage.value, None))
    ensures !TruthyText(nextPage) ==> r == CallAt(ContentItemUrl(api, item), "versions/", None)
  {
    if TruthyText(nextPage) then Ok(Call(nextPage.value, None))
    else CallAt(ContentItemUrl(api, item), "versions/", None)
  }

  /** getVersion: GET on the version URL. */
  function GetVersion(api: Api, item: Value, number: Value): (r: Result<Call, Error>)
    ensures r.Err? <==> ContentVersionUrl(api, number, item).Err?
    ensures r.Ok? ==> r.value == Call(ContentVersionUrl(api, number, item).value, None)
  {
    CallAt(ContentVersionUrl(api, number, item), "", None)
  }

  /** createVersion: POST to `versions/` under the item URL. */
  function CreateVersion(api: Api, item: Value, data: Value): (r: Result<Call, Error>)
    ensures r.Err? <==> ContentItemUrl(api, item).Err?
    ensures r.Ok? ==> r.value == Call(ContentItemUrl(api, item).value + "versions/", Send(api, Post, Some(data)))
  {
    CallAt(ContentItemUrl(api, item), "versions/", Send(api, Post, Some(data)))
  }

  /** editVersion: PUT to the version URL. */
  function EditVersion(api: Api, version: Value, data: Value, item: Value): (r: Result<Call, Error>)
    ensures r.Err? <==> ContentVersionUrl(api, version, item).Err?
    ensures r.Ok? ==> r.value == Call(ContentVersionUrl(api, version, item).value, Send(api, Put, Some(data)))
  {
    CallAt(ContentVersionUrl(api, version, item), "", Send(api, Put, Some(data)))
  }

  /** packageVersion: POST to `package/` under the version URL. */
  function PackageVersion(api: Api, version: Value, item: Value): (r: Result<Call, Error>)
    ensures r.Err? <==> ContentVersionUrl(api, version, item).Err?
    ensures r.Ok? ==> r.value == Call(ContentVersionUrl(api, version, item).value + "package/", Send(api, Post, None))
  {
    CallAt(ContentVersionUrl(api, version, item), "package/", Send(api, Post, None))
  }

  /** listPublishingRecords: `nextPage || ${itemUrl}publishing_records/`. */
  function ListPublishingRecords(api: Api, item: Value, nextPage: Option<string>): (r: Result<Call, Error>)
    ensures TruthyText(nextPage) ==> r == Ok(Call(nextPage.value, None))
    ensures !TruthyText(nextPage) ==> r == CallAt(ContentItemUrl(api, item), "publishing_records/", None)
  {
    if TruthyText(nextPage) then Ok(Call(nextPage.value, None))
    else CallAt(ContentItemUrl(api, item), "publishing_records/", None)
  }

  // ---------------------------------------------------------------------
  // The URLs in terms of the typed "object or id" arguments

  /** An App gives its own collection URL; a token gives
      `api/v2/apps/<token>/<collection>/` on the executor's base URL. */
  lemma BaseUrlOfRef(api: Api, ref: AppRef)
    requires api.appOrToken == AppRefToJs(ref)
    ensures ref.AppObject? ==> BaseUrl(api) == Ok(AppCollectionUrl(ref.app, api.name))
    ensures ref.AppToken? ==>
      BaseUrl(api) == Ok(api.executor.Url("api/v2/apps/" + ref.token + "/" + CollectionKey(api.name) + "/"))
  {
    GuardsOnTypedValues(ref, ItemId(""), Latest);
    match api.name
    case Forms =>
    case Messages =>
    case Weblinks =>
  }

  /** A content item gives its own `url`; an id gives the collection URL,
      the id and `/`. */
  lemma ItemUrlOfRef(api: Api, ref: ItemRef)
    ensures ref.ItemObject? ==> ContentItemUrl(api, ItemRefToJs(ref)) == Ok(ref.item.url)
    ensures ref.ItemId? ==> (ContentItemUrl(api, ItemRefToJs(ref)) ==
      (if BaseUrl(api).Ok? then Ok(BaseUrl(api).value + ref.id + "/") else Err(BaseUrl(api).error)))
  {
    GuardsOnTypedValues(AppToken(""), ref, Latest);
  }

  /** The three cases of a version URL, for typed arguments. */
  lemma VersionUrlOfRefs(api: Api, v: VersionRef, item: ItemRef)
    ensures v.VersionObject? ==> ContentVersionUrl(api, VersionRefToJs(v), ItemRefToJs(item)) == Ok(v.version.url)
    ensures !v.VersionObject? && item.ItemObject? ==>
      (ContentVersionUrl(api, VersionRefToJs(v), ItemRefToJs(item)) ==
        Ok(item.item.url + "versions/" + ToStr(VersionRefToJs(v)) + "/"))
    ensures !v.VersionObject? && item.ItemId? ==>
      (ContentVersionUrl(api, VersionRefToJs(v), ItemRefToJs(item)) ==
        (if BaseUrl(api).Ok? then Ok(BaseUrl(api).value + item.id + "/versions/" + ToStr(VersionRefToJs(v)) + "/")
         else Err(BaseUrl(api).error)))
  {
    if v.VersionObject? {
      GuardsOnTypedValues(AppToken(""), item, v);
    } else if item.ItemObject? {
      GuardsOnTypedValues(AppToken(""), item, v);
    } else {
      VersionUrlUnderId(api, v, item.id);
    }
  }

  /** The third case of VersionUrlOfRefs: a version under an item id. */
  lemma {:induction false} VersionUrlUnderId(api: Api, v: VersionRef, id: string)
    requires !v.VersionObject?
    ensures ContentVersionUrl(api, VersionRefToJs(v), Str(id)) ==
      (if BaseUrl(api).Ok? then Ok(BaseUrl(api).value + id + "/versions/" + ToStr(VersionRefToJs(v)) + "/")
       else Err(BaseUrl(api).error))
  {
    GuardsOnTypedValues(AppToken(""), ItemId(id), v);
    assert IsContentVersion(VersionRefToJs(v)) == Ok(false) && IsContentItem(Str(id)) == Ok(false);
    if BaseUrl(api).Ok? {
      VersionUnderIdText(BaseUrl(api).value, id, VersionRefToJs(v));
    }
  }

  lemma {:induction false} VersionUnderIdText(base: string, id: string, version: Value)
    ensures VersionUnder(base + id + "/", version) == base + id + "/versions/" + ToStr(version) + "/"
  {
  }

  /** A version number (or "latest") with no item does not build a URL: the
      item guard reads a property of undefined. */
  lemma VersionUrlNeedsItem(api: Api, v: VersionRef)
    requires !v.VersionObject?
    ensures ContentVersionUrl(api, VersionRefToJs(v), Undefined) == Err(TypeError)
  {
    GuardsOnTypedValues(AppToken(""), ItemId(""), v);
  }

  /** The page link of a list call is used as given, without building any
      URL, so it works even where the collection or item URL would throw. */
  lemma NextPageUsedVerbatim(api: Api, item: Value, link: string)
    requires link != ""
    ensures List(api, Some(link)) == Ok(Call(link, None))
    ensures ListVersions(api, item, Some(link)) == Ok(Call(link, None))
    ensures ListPublishingRecords(api, item, Some(link)) == Ok(Call(link, None))
  {
  }

  /** get puts a slash of its own between the collection URL and the form
      id, so it never requests the URL contentItemUrl gives for that id. */
  lemma {:induction false} GetDiffersFromItemUrl(api: Api, form: string)
    requires BaseUrl(api).Ok?
    ensures GetItem(api, form) == Ok(Call(BaseUrl(api).value + "/" + form + "/", None))
    ensures ContentItemUrl(api, Str(form)) == Ok(BaseUrl(api).value + form + "/")
    ensures GetItem(api, form).value.url != ContentItemUrl(api, Str(form)).value
  {
    var b := BaseUrl(api).value;
    assert b + ("/" + form + "/") == b + "/" + form + "/";
    assert |b + "/" + form + "/"| == |b + form + "/"| + 1;
  }

  /** The third character from the end of a collection URL tells the
      collections apart: `forms/`, `messages/` and `weblinks/`. */
  function CollectionMark(c: Collection): char {
    CollectionKey(c)[|CollectionKey(c)| - 2]
  }

  lemma {:induction false} CollectionMarkAt(x: string, c: Collection)
    ensures (x + CollectionKey(c) + "/")[|x + CollectionKey(c) + "/"| - 3] == CollectionMark(c)
  {
    var k := CollectionKey(c);
    assert (x + k + "/")[|x| + |k| - 2] == k[|k| - 2];
  }

  /** The path part of collection URLs: the token and the collection can be
      read back from the text. */
  lemma {:induction false} CollectionPathIdentifies(p: string, t1: string, c1: Collection, t2: string, c2: Collection)
    requires p + t1 + "/" + CollectionKey(c1) + "/" == p + t2 + "/" + CollectionKey(c2) + "/"
    ensures t1 == t2 && c1 == c2
  {
    var u := p + t1 + "/" + CollectionKey(c1) + "/";
    assert c1 == c2 by {
      CollectionMarkAt(p + t1 + "/", c1);
      CollectionMarkAt(p + t2 + "/", c2);
    }
    assert t1 == u[|p|..|p| + |t1|];
    assert t2 == u[|p|..|p| + |t2|];
  }

  /** A collection URL built from a token names one app and one
      collection: two such URLs are equal only for the same token and the
      same collection. */
  lemma {:induction false} CollectionUrlIdentifiesAppAndCollection(e: RequestExecutor, t1: string, c1: Collection,
                                                                   t2: string, c2: Collection)
    requires TokenCollectionUrl(e, t1, c1) == TokenCollectionUrl(e, t2, c2)
    ensures t1 == t2 && c1 == c2
  {
    TokenCollectionUrlText(e, t1, c1);
    TokenCollectionUrlText(e, t2, c2);
    CollectionPathIdentifies(OptText(e.options.baseUrl) + "api/v2/apps/", t1, c1, t2, c2);
  }

  lemma {:induction false} TokenCollectionUrlText(e: RequestExecutor, t: string, c: Collection)
    ensures TokenCollectionUrl(e, t, c) == OptText(e.options.baseUrl) + "api/v2/apps/" + t + "/" + CollectionKey(c) + "/"
  {
    var path := "api/v2/apps/" + t + "/" + CollectionKey(c) + "/";
    assert OptText(e.options.baseUrl) + path
        == OptText(e.options.baseUrl) + "api/v2/apps/" + t + "/" + CollectionKey(c) + "/";
  }

  /** An item given by its id: two ids reach the same item URL only when
      they print alike, and two ids of the same kind only when they are
      equal. */
  lemma {:induction false} ItemUrlIdentifiesId(api: Api, a: Value, b: Value)
    requires (a.Str? || a.Num?) && (b.Str? || b.Num?)
    requires ContentItemUrl(api, a).Ok? && ContentItemUrl(api, a) == ContentItemUrl(api, b)
    ensures ToStr(a) == ToStr(b)
    ensures a.Str? == b.Str? ==> a == b
  {
    var base := BaseUrl(api).value;
    var u := ContentItemUrl(api, a).value;
    assert u == base + ToStr(a) + "/" && u == base + ToStr(b) + "/";
    assert ToStr(a) == u[|base|..|u| - 1] == ToStr(b);
    if a.Num? && b.Num? {
      IntToDecimalInjective(a.n, b.n);
    }
  }
}
