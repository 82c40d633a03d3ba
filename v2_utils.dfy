/** The field-presence type guards of src/v2/utils.ts. Each reads one property
    and compares it with undefined, so it throws a TypeError on undefined and
    null and answers false for numbers and strings. */
module V2Utils {
  import opened Js
  import opened V2Types

  /** `p !== undefined` for the property read from v. */
  function Present(v: Value, key: string): (r: Result<bool, Error>)
    ensures r.Err? <==> v.Undefined? || v.Null?
    ensures r == Ok(true) <==> v.Obj? && key in v.props && !v.props[key].Undefined?
  {
    match Get(v, key)
    case Err(e) => Err(e)
    case Ok(p) => Ok(!p.Undefined?)
  }

  /** isApp: the value has a `token`. */
  function IsApp(a: Value): (r: Result<bool, Error>)
    ensures r.Err? <==> a.Undefined? || a.Null?
    ensures r == Ok(true) <==> a.Obj? && "token" in a.props && !a.props["token"].Undefined?
  {
    Present(a, "token")
  }

  /** isContentItem: the value has a `uuid`. */
  function IsContentItem(f: Value): (r: Result<bool, Error>)
    ensures r.Err? <==> f.Undefined? || f.Null?
    ensures r == Ok(true) <==> f.Obj? && "uuid" in f.props && !f.props["uuid"].Undefined?
  {
    Present(f, "uuid")
  }

  /** isContentVersion: the value has a `url`. */
  function IsContentVersion(f: Value): (r: Result<bool, Error>)
    ensures r.Err? <==> f.Undefined? || f.Null?
    ensures r == Ok(true) <==> f.Obj? && "url" in f.props && !f.props["url"].Undefined?
  {
    Present(f, "url")
  }

  /** Each guard accepts exactly the shape it is named after, among the
      "object or id" unions it is used on. */
  lemma GuardsOnTypedValues(a: AppRef, i: ItemRef, v: VersionRef)
    ensures IsApp(AppRefToJs(a)) == Ok(a.AppObject?)
    ensures IsContentItem(ItemRefToJs(i)) == Ok(i.ItemObject?)
    ensures IsContentVersion(VersionRefToJs(v)) == Ok(v.VersionObject?)
  {
  }

  /** A content item carries a `url`, so it passes isContentVersion too. */
  lemma ContentItemPassesVersionGuard(c: ContentItem)
    ensures IsContentVersion(ContentItemToJs(c)) == Ok(true)
  {
  }

  /** The guards fail, instead of answering, on undefined and null. */
  lemma GuardsThrowOnMissingValue(v: Value)
    requires v.Undefined? || v.Null?
    ensures IsApp(v) == Err(TypeError) && IsContentItem(v) == Err(TypeError)
    ensures IsContentVersion(v) == Err(TypeError)
  {
  }
}
