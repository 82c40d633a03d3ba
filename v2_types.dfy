/** The record shapes of the v2 API (src/v2/types.ts), and how each appears
    as a JavaScript object. */
module V2Types {
  import opened Js

  /** One page of a list endpoint; `next` is the link to the following page. */
  datatype APIList<T> = APIList(count: int, next: Option<string>, previous: Option<string>, results: seq<T>)

  datatype App = App(url: string, id: int, token: string, publicKey: string,
                     forms: string, messages: string, weblinks: string)

  datatype ContentItem = ContentItem(url: string, uuid: string, name: string, slug: string,
                                     description: string, versions: string,
                                     publishingRecords: string, created: string,
                                     modified: string, isAvailable: bool)

  datatype ContentItemVersion = ContentItemVersion(url: string, name: string, number: int,
                                                   metadata: map<string, Value>)

  function AppToJs(a: App): Value {
    Obj(map["url" := Str(a.url), "id" := Num(a.id), "token" := Str(a.token),
            "public_key" := Str(a.publicKey), "forms" := Str(a.forms),
            "messages" := Str(a.messages), "weblinks" := Str(a.weblinks)])
  }

  function ContentItemToJs(c: ContentItem): Value {
    Obj(map["url" := Str(c.url), "uuid" := Str(c.uuid), "name" := Str(c.name),
            "slug" := Str(c.slug), "description" := Str(c.description),
            "versions" := Str(c.versions), "publishing_records" := Str(c.publishingRecords),
            "created" := Str(c.created), "modified" := Str(c.modified),
            "is_available" := Bool(c.isAvailable)])
  }

  function VersionToJs(v: ContentItemVersion): Value {
    Obj(map["url" := Str(v.url), "name" := Str(v.name), "number" := Num(v.number),
            "metadata" := Obj(v.metadata)])
  }

  /** `App | string`: an app object, or an app token. */
  datatype AppRef = AppObject(app: App) | AppToken(token: string)

  /** `string | ContentItem`: a content item, or its id. */
  datatype ItemRef = ItemObject(item: ContentItem) | ItemId(id: string)

  /** `U | number | "latest"`: a version object, a version number, or the
      literal "latest". */
  datatype VersionRef = VersionObject(version: ContentItemVersion) | VersionNumber(n: int) | Latest

  function AppRefToJs(r: AppRef): Value {
    match r
    case AppObject(a) => AppToJs(a)
    case AppToken(t) => Str(t)
  }

  function ItemRefToJs(r: ItemRef): Value {
    match r
    case ItemObject(c) => ContentItemToJs(c)
    case ItemId(id) => Str(id)
  }

  function VersionRefToJs(r: VersionRef): Value {
    match r
    case VersionObject(v) => VersionToJs(v)
    case VersionNumber(n) => Num(n)
    case Latest => Str("latest")
  }
}
