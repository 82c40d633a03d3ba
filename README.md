# Ubiquity client, modelled in Dafny

This project models the TypeScript client library for the Liquid State
"Ubiquity" platform and proves properties of the model. It covers:

- the v2 request executors (Authorization choice, header merging, URL
  building, and how a fetch outcome becomes a result or an error);
- the v2 app client and the v2 admin client, with their option defaults and
  their lazily created executor;
- the content item API (forms, messages and weblinks of one app);
- the paginator that follows `next` links;
- the v1 admin client (`cleanPath`, `idFrom`, the request it sends);
- the v1 app-user client (URL templating, JWT selection, the reshaping of
  app content and the 403 rule of the message history).

The network is a function parameter `fetch: Request -> FetchOutcome`: a
request goes in, and a response (status and body) or a transport failure
comes out. JavaScript values are the datatype `Js.Value`. The JavaScript
behaviour the code relies on is written out in module `Js`: truthiness,
template-literal string conversion, property reads that throw on
undefined/null, `in` on a primitive, and `String.prototype.replace` with a
string pattern. That `replace` changes only the first occurrence and expands
`$$`, `$&`, `` $` `` and `$'` in the replacement.

Files and modules:

| file | module | models |
|---|---|---|
| js.dfy | `Js` | JavaScript run-time behaviour used by the clients |
| http.dfy | `Http` | credentials, headers, options defaults, requests and responses |
| v2_types.dfy | `V2Types` | the v2 record shapes and their JavaScript form |
| v2_utils.dfy | `V2Utils` | src/v2/utils.ts |
| v2_client.dfy | `V2Client` | src/v2/client.ts |
| v2_admin_executor.dfy | `V2AdminExecutor` | `RequestExecutor` of src/v2/admin-client.ts |
| content_item_api.dfy | `ContentItemApi` | src/v2/content-item-api.ts |
| v2_admin_client.dfy | `V2AdminClient` | `UbiquityV2AdminClient` of src/v2/admin-client.ts |
| paginator.dfy | `Paginator` | src/v2/paginator.ts |
| admin_client.dfy | `V1Admin` | src/admin-client.ts |
| client.dfy | `V1Client` | src/client.ts |

src/v2/admin-client.ts and src/v2/content-item-api.ts import each other. The
model splits the first file into two modules, so that the executor comes
before the content item API and the admin client after it.

## Where the code and its evident intent differ

The model follows the code in both cases below, and states the intended
behaviour beside it.

- In src/v2/client.ts:45-58, a response that is not ok throws a
  `UbiquityError` inside the `try`. The `catch` then replaces it with a
  `NetworkError`. A 404 is therefore reported exactly like an unreachable
  server, and the status is lost. The `UbiquityError` class
  (src/v2/client.ts:20-24) exists to carry the response to the caller, so
  the evident intent is an error that keeps the status.
  - `V2Client.NonOkResponseLosesStatus` shows the code's behaviour.
  - `V2Client.ClassifyIntended` is the classification the error classes
    describe, and states how it relates to the code's.
- src/v2/admin-client.ts:45-55 has no 204 case. An ok reply with an empty body
  (a 204 to a DELETE, say) goes to `r.json()` and rejects. The app client's
  executor (src/v2/client.ts:51-53) answers undefined instead.
  - `V2AdminExecutor.NoContentRejects` shows the two executors differ there.
  - `V2AdminExecutor.AgreesWithAppExecutorExceptNoContent` shows they agree
    everywhere else.

## Model

| member | source | states |
|---|---|---|
| Js.ReplaceFirst | src/client.ts:207-209 | with no occurrence of the pattern the string is unchanged; otherwise the text before and after the first occurrence is kept |
| Http.AuthorizationValue | src/v2/client.ts:29-31 | a truthy API key gives `Token <key>`, anything else gives `Bearer <jwt>` (the text "undefined" without a JWT); the value parses back to exactly that credential, and it starts with the token scheme exactly when the API key is truthy |
| Http.JsonHeaders | src/v2/client.ts:37-43 | the keys are Authorization, Content-Type and the extra keys; an extra key's value wins; otherwise Authorization is the chosen credential and Content-Type is application/json |
| Http.WithDefaults | src/v2/client.ts:65-76 | after the option defaulting both base URLs are non-empty; a non-empty user URL is kept and an empty or missing one is replaced by the default |
| V2Utils.IsApp | src/v2/utils.ts:3-5 | throws exactly on undefined and null; true exactly for an object whose `token` is present and not undefined |
| V2Utils.IsContentItem | src/v2/utils.ts:7-9 | throws exactly on undefined and null; true exactly for an object with a defined `uuid` |
| V2Utils.IsContentVersion | src/v2/utils.ts:11-13 | throws exactly on undefined and null; true exactly for an object with a defined `url` |
| V2Utils.GuardsOnTypedValues | src/v2/utils.ts:3-13 | on the "object or id" unions each guard is true exactly for the object form; numbers, strings and "latest" give false |
| V2Utils.ContentItemPassesVersionGuard | src/v2/utils.ts:11-13 | every content item passes isContentVersion, because it carries a `url` |
| V2Utils.GuardsThrowOnMissingValue | src/v2/utils.ts:3-13 | on undefined and null every guard throws a TypeError |
| V2Client.RequestExecutor.constructor | src/v2/client.ts:27 | the executor keeps the identity and options it is given |
| V2Client.RequestExecutor.Url | src/v2/client.ts:33-35 | the URL is the base URL and the path, exactly, without a query; with one it ends in `?` and the stringified query, at the computed length |
| V2Client.RequestExecutor.FetchedRequest | src/v2/client.ts:47 | a given init is passed through unchanged; an omitted one becomes a GET with no body whose headers are exactly Authorization (the chosen credential) and Content-Type (application/json) |
| V2Client.Classify | src/v2/client.ts:45-58 | NetworkError exactly for a transport failure or a response that is not ok; an ok 204 gives undefined; SyntaxError exactly for another ok response whose body does not parse; a value only from the body; no other error |
| V2Client.NonOkResponseLosesStatus | src/v2/client.ts:46-57 | a 404 gives the same result as a transport failure and as a 500 |
| V2Client.ClassifyIntended | src/v2/client.ts:20-24 | the classification the error classes describe: a response that is not ok is an API error carrying its status, NetworkError means a transport failure only, and everything else agrees with Classify |
| V2Client.VersionQuery | src/v2/client.ts:99-102 | a query exists exactly for a version that is given and non-zero, and it holds that version |
| V2Client.QueryFollowsPath | src/v2/client.ts:33-35 | when base URL and path have no `?`, the first `?` of the URL is the one before the query, and the rest is the stringified query |
| V2Client.UbiquityV2Client.constructor | src/v2/client.ts:65-76 | the options become the defaulted options and there is no executor yet |
| V2Client.UbiquityV2Client.Executor | src/v2/client.ts:78-83 | the first call creates an executor from the client's identity and options; every later call returns that same executor, which carries the client's identity and options |
| V2Client.UbiquityV2Client.ListApps | src/v2/client.ts:85-87 | fetches the default request for `api/v2/apps/` through the cached executor, which carries the client's identity and options (so the client's base URL and credentials), and the result is that outcome's classification |
| V2Client.UbiquityV2Client.GetApp | src/v2/client.ts:89-91 | the same for `api/v2/apps/<token>/`, through the executor carrying the client's identity and options |
| V2Client.UbiquityV2Client.GetForm | src/v2/client.ts:93-104 | the same for the form's content-lookup path, with the version query only for a truthy version, through the executor carrying the client's identity and options |
| V2Client.UbiquityV2Client.GetWeblink | src/v2/client.ts:106-117 | the same for the weblink's content-lookup path, with the same version query, through the executor carrying the client's identity and options |
| V2AdminExecutor.RequestExecutor.constructor | src/v2/admin-client.ts:27 | the executor keeps its identity and options |
| V2AdminExecutor.RequestExecutor.Url | src/v2/admin-client.ts:33-35 | the URL starts with the base URL and ends with the path, and is exactly as long as both |
| V2AdminExecutor.RequestExecutor.FetchedRequest | src/v2/admin-client.ts:47 | a given init passes through; an omitted one is a GET with no body and exactly the Authorization header (the chosen credential) and Content-Type (application/json) |
| V2AdminExecutor.Classify | src/v2/admin-client.ts:45-55 | NetworkError exactly for a transport failure or a response that is not ok; a value exactly for an ok response whose body parses, and it is that body; no other error than NetworkError and SyntaxError |
| V2AdminExecutor.NoContentRejects | src/v2/admin-client.ts:45-55 | an ok 204 with an empty body rejects here with SyntaxError, while the app client's executor gives undefined |
| V2AdminExecutor.AgreesWithAppExecutorExceptNoContent | src/v2/admin-client.ts:45-55 | on every outcome other than a 204 response the two executors give the same result |
| ContentItemApi.New | src/v2/content-item-api.ts:14-22 | the constructor throws exactly when the app or token is undefined (null passes), and otherwise keeps its three arguments |
| ContentItemApi.TokenCollectionUrl | src/v2/content-item-api.ts:27 | the URL built from a token starts with the base URL, `api/v2/apps/` and the token, and ends with `/<collection>/` |
| ContentItemApi.BaseUrl | src/v2/content-item-api.ts:24-28 | throws exactly on undefined and null; an app gives the text of its own collection field ("undefined" when it is missing); anything else is used as a token |
| ContentItemApi.ContentItemUrl | src/v2/content-item-api.ts:114-120 | throws exactly for an undefined or null item, or an id with no collection URL; an id gives the collection URL followed by the id and `/` |
| ContentItemApi.VersionUnder | src/v2/content-item-api.ts:126-128 | a version URL starts with the item URL and ends with `versions/<version>/` |
| ContentItemApi.ContentVersionUrl | src/v2/content-item-api.ts:122-130 | an undefined or null version throws a TypeError, and so does a version number with an undefined or null item; a URL built for a version number ends with `versions/<n>/` |
| ContentItemApi.List | src/v2/content-item-api.ts:32-34 | a non-empty page link is requested verbatim; otherwise the collection URL is |
| ContentItemApi.GetItem | src/v2/content-item-api.ts:36-39 | fails exactly when the collection URL does; a GET with the default init of a URL ending in `/<form>/` |
| ContentItemApi.Create | src/v2/content-item-api.ts:41-47 | a POST of the data with the JSON headers to the collection URL |
| ContentItemApi.Edit | src/v2/content-item-api.ts:49-56 | a PUT of the data with the JSON headers to the item URL, failing exactly when that URL does |
| ContentItemApi.DeleteItem | src/v2/content-item-api.ts:58-64 | a DELETE with the JSON headers and no body to the item URL |
| ContentItemApi.MakeAvailable | src/v2/content-item-api.ts:66-69 | fails exactly when the item URL does; otherwise a POST with the JSON headers to the item URL followed by `make_available/` |
| ContentItemApi.MakeUnavailable | src/v2/content-item-api.ts:71-74 | fails exactly when the item URL does; otherwise a POST with the JSON headers to the item URL followed by `make_unavailable/` |
| ContentItemApi.ListVersions | src/v2/content-item-api.ts:76-79 | a non-empty page link verbatim, otherwise the item URL followed by `versions/` |
| ContentItemApi.GetVersion | src/v2/content-item-api.ts:81-84 | a GET with the default init of the version URL, failing exactly when that URL does |
| ContentItemApi.CreateVersion | src/v2/content-item-api.ts:86-93 | fails exactly when the item URL does; otherwise a POST of the data with the JSON headers to the item URL followed by `versions/` |
| ContentItemApi.EditVersion | src/v2/content-item-api.ts:95-102 | a PUT of the data to the version URL |
| ContentItemApi.PackageVersion | src/v2/content-item-api.ts:104-107 | fails exactly when the version URL does; otherwise a POST with the JSON headers to the version URL followed by `package/` |
| ContentItemApi.ListPublishingRecords | src/v2/content-item-api.ts:109-112 | a non-empty page link verbatim, otherwise the item URL followed by `publishing_records/` |
| ContentItemApi.BaseUrlOfRef | src/v2/content-item-api.ts:24-28 | an app object gives its own forms, messages or weblinks URL; a token gives `executor.url("api/v2/apps/<token>/<collection>/")` |
| ContentItemApi.ItemUrlOfRef | src/v2/content-item-api.ts:114-120 | a content item gives its `url`; an id gives the collection URL, the id and `/` (or the collection URL's error) |
| ContentItemApi.VersionUrlOfRefs | src/v2/content-item-api.ts:122-130 | the three cases: a version object's `url`; else an item's `url` + `versions/<n>/`; else the collection URL + id + `/versions/<n>/` |
| ContentItemApi.VersionUrlNeedsItem | src/v2/content-item-api.ts:122-128 | a version number or "latest" without an item throws a TypeError instead of building a URL |
| ContentItemApi.NextPageUsedVerbatim | src/v2/content-item-api.ts:32-34 | a non-empty page link is requested as given by all three list calls, whatever the app or item |
| ContentItemApi.GetDiffersFromItemUrl | src/v2/content-item-api.ts:36-39 | get requests the collection URL + `/` + form + `/`, which is never the item URL of that form id |
| ContentItemApi.CollectionUrlIdentifiesAppAndCollection | src/v2/content-item-api.ts:24-28 | two collection URLs built from tokens are equal only for the same token and the same collection |
| Js.IntToDecimalInjective | src/v2/content-item-api.ts:118 | different integers print differently (the decimal text reads back to its number), so a numeric id's text in a URL names one number |
| ContentItemApi.ItemUrlIdentifiesId | src/v2/content-item-api.ts:114-120 | two string or number ids reach the same item URL only when they print alike, and two ids of the same kind only when they are equal |
| V2AdminClient.UbiquityV2AdminClient.constructor | src/v2/admin-client.ts:62-73 | the options become the defaulted options and there is no executor yet |
| V2AdminClient.UbiquityV2AdminClient.Executor | src/v2/admin-client.ts:75-80 | created once from the client's identity and options, then always the same instance, which carries the client's identity and options |
| V2AdminClient.UbiquityV2AdminClient.ListApps | src/v2/admin-client.ts:82-84 | the default request for `api/v2/apps/` through the cached executor, which carries the client's identity and options, classified without a 204 case |
| V2AdminClient.UbiquityV2AdminClient.GetApp | src/v2/admin-client.ts:86-88 | the same for `api/v2/apps/<token>/`, through the executor carrying the client's identity and options |
| V2AdminClient.UbiquityV2AdminClient.Forms | src/v2/admin-client.ts:90-92 | a content item API over the forms collection, sharing the client's executor, which carries the client's identity and options |
| V2AdminClient.UbiquityV2AdminClient.Messages | src/v2/admin-client.ts:94-96 | the same over messages, on the executor carrying the client's identity and options |
| V2AdminClient.UbiquityV2AdminClient.Weblinks | src/v2/admin-client.ts:98-100 | the same over weblinks, on the executor carrying the client's identity and options |
| Paginator.NextStep | src/v2/paginator.ts:16-28 | null exactly when nothing is queued and there is no truthy link; a queued page wins, is cleared and recorded; a rejected one is passed on and kept; a link is requested exactly when nothing is queued and the link is truthy; a failed fetch of the link is passed on with its own error; state is unchanged unless results come out |
| Paginator.BeginCursor | src/v2/paginator.ts:11-14 | begin queues the given page and keeps the previous one |
| Paginator.FreshIsExhausted | src/v2/paginator.ts:6-7 | a paginator never begun returns null, requests nothing and changes nothing |
| Paginator.ExhaustedStays | src/v2/paginator.ts:23-24 | after a null every later call returns null |
| Paginator.RejectionRepeats | src/v2/paginator.ts:18-20 | a rejected first page is rethrown by every call |
| Paginator.FollowsChain | src/v2/paginator.ts:21-27 | from a page of a link chain, the following pages' results come out in order, then null, and the links requested are exactly the `next` links passed |
| Paginator.WalksWholeChain | src/v2/paginator.ts:11-28 | begun with the first page of a chain of k pages, next yields the k result lists in order, then null, after requesting exactly the k-1 links |
| Paginator.Paginator.constructor | src/v2/paginator.ts:5-9 | a new paginator has nothing queued and no previous page |
| Paginator.Paginator.Begin | src/v2/paginator.ts:11-14 | queues the page and returns the paginator itself |
| Paginator.Paginator.Next | src/v2/paginator.ts:16-28 | the fields, the result and the requested link are those of NextStep on the old fields |
| Paginator.Paginator.HasNext | src/v2/paginator.ts:30-32 | true exactly when the next call of next will not return null |
| V1Admin.IdFrom | src/admin-client.ts:79-84 | throws exactly on undefined and null; an object with a truthy `id` gives that id's text; a number or string gives its own text |
| V1Admin.IdentifierForms | src/admin-client.ts:79-84 | a number gives its decimal text, a string itself, an object with a non-zero id the same as that id, and an object with id 0 gives "[object Object]" |
| V1Admin.StripLeadingSlashes | src/admin-client.ts:86-92 | the result is a suffix of the path that does not start with `/`, and everything removed is `/` |
| V1Admin.StripIsMaximalRun | src/admin-client.ts:86-92 | the result is the path after its maximal leading run of `/`, whatever its length |
| V1Admin.StripFixesCleanPaths | src/admin-client.ts:86-92 | a path not starting with `/` is unchanged, and stripping is idempotent |
| V1Admin.CleanPath | src/admin-client.ts:86-92 | the loop's result is the path with its leading `/` run removed |
| V1Admin.CheckResponse | src/admin-client.ts:72-76 | a response exactly when fetch gives an ok one; a transport failure propagates; a response that is not ok becomes "Invalid ubiquity request" |
| V1Admin.ReadJson | src/admin-client.ts:40-41 | a value exactly for an ok response whose body parses; a failed check's error when the check fails; SyntaxError for an ok response whose body does not parse |
| V1Admin.AppDetailsPath | src/admin-client.ts:44-47 | `api/core/v1/apps/<idFrom(app)>/`, failing exactly when idFrom does |
| V1Admin.DocumentsPath | src/admin-client.ts:49-52 | `api/core/v1/apps/<idFrom(app)>/documents/` |
| V1Admin.DocumentVersionsPath | src/admin-client.ts:54-59 | `api/core/v1/apps/<app>/documents/<document>/versions/`; the app's error comes first |
| V1Admin.PagesPath | src/admin-client.ts:61-63 | the document version's `links.pages` when it is a string, a TypeError otherwise |
| V1Admin.ApiPathsAreClean | src/admin-client.ts:44-59 | a path built under `api/core/v1/apps/` is kept by cleanPath, so it is requested as built |
| V1Admin.PagesIgnoreLeadingSlashes | src/admin-client.ts:61-63 | a pages link with a leading `/` reaches the same URL as without it |
| V1Admin.UbiquityAdmin.constructor | src/admin-client.ts:26-37 | the options become the defaulted options |
| V1Admin.UbiquityAdmin.RequestFor | src/admin-client.ts:65-72 | a GET of base URL + cleaned path, with no body and the Authorization header only; its value is `Token <apiKey>` for a truthy API key and `Bearer <jwt>` otherwise |
| V1Admin.UbiquityAdmin.Request | src/admin-client.ts:65-77 | sends exactly RequestFor(path); the result is the checked outcome |
| V1Admin.UbiquityAdmin.Endpoint | src/admin-client.ts:39-63 | a path error is thrown before any fetch; otherwise the JSON of the checked response to that path |
| V1Admin.UbiquityAdmin.Apps | src/admin-client.ts:39-42 | the JSON of the checked response to `api/core/v1/apps/` |
| V1Admin.UbiquityAdmin.AppDetails | src/admin-client.ts:44-47 | the same for the app details path, a TypeError when the id is undefined or null |
| V1Admin.UbiquityAdmin.Documents | src/admin-client.ts:49-52 | the same for the documents path |
| V1Admin.UbiquityAdmin.DocumentVersions | src/admin-client.ts:54-59 | the same for the document versions path |
| V1Admin.UbiquityAdmin.Pages | src/admin-client.ts:61-63 | the same for the pages link |
| V1Client.ClientWithDefaults | src/client.ts:55-67 | with no options, the defaults; otherwise non-empty user base URLs are kept, empty or missing ones defaulted, the locator kept, and the identity the user's or the empty default |
| V1Client.Template | src/client.ts:196-206 | with a locator, exactly the locator's URL for the endpoints it knows and nothing for the others; without, the chosen base URL (S3 or API) followed by the path map's template, exactly for the path map's endpoints |
| V1Client.UrlFor | src/client.ts:196-211 | fails exactly when there is no template, and then with UrlNotFound |
| V1Client.LocatorUrlUsedVerbatim | src/client.ts:198-199 | a locator URL without a `{{` slot comes back unchanged, whatever the tokens |
| V1Client.LocatorTakesPrecedence | src/client.ts:198-203 | with a locator, neither the base URLs nor the S3 flag matter; an endpoint it does not know fails even if the path map has it |
| V1Client.UnknownEndpointFails | src/client.ts:200-206 | without a locator, an endpoint outside the path map fails |
| V1Client.UserScopedTemplateFilled | src/client.ts:200-209 | getUrl on a user-scoped template gives the S3 base with the company and app tokens in their slots and the user slot still open |
| V1Client.UserScopedUrl | src/client.ts:207-209 | with ordinary tokens, a user-scoped URL is the S3 base, then the company token, app token and user id in their places |
| V1Client.AppScopedUrl | src/client.ts:207-209 | an API-host URL is the base URL with the app token in its slot |
| V1Client.PublicConfigUrl | src/client.ts:207-209 | with ordinary tokens the public configuration URL is the S3 base URL, then `c/`, the company token, `/apps/`, the app token and `/app.json` |
| V1Client.OnlyFirstSlotFilled | src/client.ts:207-209 | a company token reading `{{appToken}}` receives the app token, and the template's own app slot stays |
| V1Client.DollarPatternInToken | src/client.ts:207-209 | an app token `$&` puts the slot text back instead of itself |
| V1Client.Jwt | src/client.ts:213-224 | no identity gives undefined; a non-empty explicit JWT wins; otherwise the provider's JWT when it is configured and authenticated, else undefined |
| V1Client.ExplicitJwtWins | src/client.ts:217-223 | with an explicit JWT the provider's answer never matters; an unauthenticated provider or none gives undefined |
| V1Client.Sub | src/client.ts:226-232 | without a token a TypeError; with one, the decoded `sub` |
| V1Client.Checked | src/client.ts:143-145 | the response exactly when it is ok; a transport failure propagates; otherwise a UbiquityError with the prefixed message and the status |
| V1Client.CheckedJson | src/client.ts:142-146 | a value exactly for an ok response whose body parses; the check's error when it fails; SyntaxError for an ok response whose body does not parse |
| V1Client.HistoryFrom | src/client.ts:177-185 | a 403 gives an empty message list; other responses that are not ok throw with their status; the rest as CheckedJson |
| V1Client.OnlyForbiddenForgiven | src/client.ts:178-184 | among statuses that are not ok, exactly 403 succeeds |
| V1Client.OldStyle | src/client.ts:162-169 | an object with exactly categories and iaps, iaps having exactly ios, android and web, all three the documents |
| V1Client.ShapeContent | src/client.ts:160-171 | throws exactly for data that is not an object or array (whatever the flag); with the flag and a `documents` key the old-style map; otherwise the data unchanged |
| V1Client.PublicContent | src/client.ts:188-194 | throws exactly when the configuration or its `iaps` is missing; otherwise an object with exactly `categories`, the configuration's categories, and `documents`, its `iaps.ios` |
| V1Client.OldStyleReadsBack | src/client.ts:161-169 | reading the old-style map the way the public configuration is read gives back the categories and documents |
| V1Client.BearerHeaders | src/client.ts:82-84 | only an Authorization header, a bearer credential with the JWT's text |
| V1Client.Ubiquity.constructor | src/client.ts:55-67 | the tokens are kept and the options become the defaulted options |
| V1Client.Ubiquity.GetUrl | src/client.ts:196-211 | the method's result is UrlFor of the client's options and tokens |
| V1Client.Ubiquity.UserUrl | src/client.ts:140-141 | a token that cannot be read fails before any URL lookup; otherwise the endpoint's URL with the `sub` text in its user slot |
| V1Client.Ubiquity.Register | src/client.ts:69-77 | a POST without authorization to the registration URL whose form's `json_data` holds the username and password, the response returned unchecked |
| V1Client.Ubiquity.GetProfile | src/client.ts:79-91 | a GET with the bearer JWT; the `data` of the checked JSON |
| V1Client.Ubiquity.SetProfile | src/client.ts:93-110 | with the clear flag the caller's object gains `_clear_profile: true` before it is sent; with no URL it is left alone; the POST carries the object as sent |
| V1Client.Ubiquity.SetDevice | src/client.ts:112-128 | a POST with the bearer JWT of action `add` and the installation id |
| V1Client.Ubiquity.AppPublicConfiguration | src/client.ts:130-137 | a plain GET of the public config URL on the S3 host; the checked JSON |
| V1Client.Ubiquity.AppConfiguration | src/client.ts:139-147 | a plain GET of the user's config URL; the checked JSON |
| V1Client.Ubiquity.MessageHistory | src/client.ts:174-186 | a plain GET of the user's message list URL, classified by HistoryFrom |
| V1Client.Ubiquity.PublicAppContent | src/client.ts:188-194 | the public configuration, reshaped to categories and documents |
| V1Client.Ubiquity.AppContent | src/client.ts:149-172 | without a JWT, the public content, or UrlNotFound when there is no public configuration URL; with one, the user's viewable issues reshaped by the old-style flag |
| V1Client.UserUrlFor | src/client.ts:154-155 | the token is decoded first; then there is a URL exactly when the endpoint has one |
| V1Client.NoJwtNoUserUrl | src/client.ts:226-228 | without a JWT the user-scoped endpoints throw a TypeError before any request |

## Left out

- fetch, promises and `await`: the network is a deterministic function from request to outcome. Two calls with the same request get the same answer, and concurrent calls are not modelled.
- Response bodies are `Json(value)` or `Unparseable`; JSON parsing and `JSON.stringify` of request bodies are not modelled. A request body is the value before serialisation, and a `FormData` body is the map of its fields.
- query-string's `stringify` is a function parameter of `V2Client.RequestExecutor.Url`.
- V2Client.RequestExecutor.Execute: no contract of its own; it is Classify applied to the fetch of FetchedRequest, and both of those carry the contracts.
- ContentItemApi endpoints return the `execute(url, init)` call they make rather than its result; the result is `V2AdminExecutor.RequestExecutor.Execute` of that call.
- Paginator.Paginator: the executor call behind a `next` link is a parameter `fetchPage` that answers with a page or an error; reading the JSON as an `APIList` and the generic cast in `begin` are not modelled.
- V1Client: the identity provider's `getIdentity()` answer is a parameter; `appContent` calls `jwt()` twice and the model assumes the same answer both times.
- V1Client: the URL locator (`als`) is a map from endpoint to URL for the 'ubiquity' service.
- V1Client.Sub: decoding the JWT payload (`split`, `atob`, `JSON.parse`) is a parameter; only the undefined-token TypeError is modelled.
- V1Client.UrlFor: `endpoint in pathMap` is also true for inherited names such as `toString`; the model's path map has its own keys only.
- V1Client.UrlFor: the text of the "Unable to find url" error is not modelled (it interpolates an unrelated global `name`); only UrlNotFound is.
- Error messages of the v2 and v1 admin errors are not modelled; the v1 app-user client's UbiquityError keeps its message and status.
- V2Client.RequestExecutor, V2AdminExecutor.RequestExecutor, V1Admin.UbiquityAdmin and V1Client.Ubiquity: each source class keeps the caller's `identity` object by reference and reads it again on every request (src/v2/client.ts:27-31, src/v2/admin-client.ts:27-31, src/admin-client.ts:26,66-68, src/client.ts:214-220). The model copies the identity at construction, so a caller changing `identity.jwt` or `identity.apiKey` later is not modelled.
- ContentItemApi.Api: `appOrToken` is likewise held by reference and read on every URL (src/v2/content-item-api.ts:17,24-28); the model fixes its value at construction.
- Object spread: a key given as undefined is treated like an absent key. For base URLs the fix-up gives the same result. For `identity` both lead `jwt()` to undefined.
- Numbers are integers; the text of non-integer numbers is not modelled. Js.IntToDecimal prints every digit. JavaScript prints integers of 1e21 and above in exponent form (`"1e+21"`) and does not hold integers above 2^53 exactly, so neither is modelled.
- src/plugin.ts (host framework glue) and src/index.ts (re-exports) are not part of this model. src/v2/types.ts has declarations only; its shapes are the datatypes of `V2Types`.
