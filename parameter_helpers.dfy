/**
 * Typed accessors that read a string, a link or an asset out of an
 * instance's generic parameter map, each with its own defaults.
 */
module ParameterHelpers {
  import opened Wrappers
  import opened JsValue
  import opened Composition

  /** `component.parameters?.[paramId]?.value`. */
  function ParamValue(component: Node, paramId: string): (v: Value)
    ensures component.parameters.None? ==> v == Undef
    ensures component.parameters.Some? && paramId !in component.parameters.value ==> v == Undef
    ensures component.parameters.Some? && paramId in component.parameters.value ==>
      v == component.parameters.value[paramId].value
  {
    match component.parameters
    case None => Undef
    case Some(params) => if paramId in params then params[paramId].value else Undef
  }

  /**
   * `getStringParameter`: the stored value exactly when it is a non-empty
   * string; otherwise (no parameter map, no such parameter, '' or a value of
   * another type) the default.
   */
  function GetStringParameter(component: Node, paramId: string, defaultValue: string): (r: string)
    ensures ParamValue(component, paramId).Str? && ParamValue(component, paramId).s != "" ==>
      r == ParamValue(component, paramId).s
    ensures !(ParamValue(component, paramId).Str? && ParamValue(component, paramId).s != "") ==>
      r == defaultValue
  {
    var v := ParamValue(component, paramId);
    if Truthy(v) && TypeOf(v) == "string" then v.s else defaultValue
  }

  /** `getStringParameter` with the default argument omitted, which is ''. */
  function GetStringParameterOrEmpty(component: Node, paramId: string): (r: string)
    ensures r != "" <==> ParamValue(component, paramId).Str? && ParamValue(component, paramId).s != ""
    ensures r != "" ==> r == ParamValue(component, paramId).s
  {
    GetStringParameter(component, paramId, "")
  }

  /** The `{ path, type }` record `getLinkParameter` returns. */
  datatype Link = Link(path: Value, linkType: Value)

  /**
   * `getLinkParameter`: a link only for a truthy value whose `typeof` is
   * 'object' (an object or an array); `path` defaults to '' and `type` to
   * 'internal' when falsy.
   */
  function GetLinkParameter(component: Node, paramId: string): (r: Option<Link>)
    ensures r.Some? <==> ParamValue(component, paramId).Obj? || ParamValue(component, paramId).Arr?
    ensures r.Some? ==> r.value.path == Or(Get(ParamValue(component, paramId), "path"), Str(""))
    ensures r.Some? ==> r.value.linkType == Or(Get(ParamValue(component, paramId), "type"), Str("internal"))
  {
    var v := ParamValue(component, paramId);
    if Truthy(v) && TypeOf(v) == "object" then
      Some(Link(Or(Get(v, "path"), Str("")), Or(Get(v, "type"), Str("internal"))))
    else None
  }

  /** A link's truthy fields pass through and falsy ones take their defaults, so the type is never falsy. */
  lemma LinkDefaults(component: Node, paramId: string)
    requires GetLinkParameter(component, paramId).Some?
    ensures var link := GetLinkParameter(component, paramId).value;
      var v := ParamValue(component, paramId);
      && (Truthy(Get(v, "path")) ==> link.path == Get(v, "path"))
      && (!Truthy(Get(v, "path")) ==> link.path == Str(""))
      && Truthy(link.linkType)
      && (Truthy(Get(v, "type")) ==> link.linkType == Get(v, "type"))
      && (!Truthy(Get(v, "type")) ==> link.linkType == Str("internal"))
  {
  }

  /** The `{ url, title }` record `getAssetParameter` returns. */
  datatype Asset = Asset(url: Value, title: Value)

  /** `asset.fields?.url?.value`. */
  function FieldsUrl(asset: Value): Value {
    Get(Get(Get(asset, "fields"), "url"), "value")
  }

  /** `asset.fields.title?.value`. */
  function FieldsTitle(asset: Value): Value {
    Get(Get(Get(asset, "fields"), "title"), "value")
  }

  /**
   * `getAssetParameter`: for a truthy value, a top-level `url` (with the
   * top-level `title`) wins over `fields.url.value` (with `fields.title?.value`);
   * without either url, or for a falsy value, null.
   */
  function GetAssetParameter(component: Node, paramId: string): (r: Option<Asset>)
    ensures r.Some? ==> Truthy(r.value.url)
    ensures var v := ParamValue(component, paramId);
      Truthy(Get(v, "url")) ==> r == Some(Asset(Get(v, "url"), Get(v, "title")))
    ensures var v := ParamValue(component, paramId);
      !Truthy(Get(v, "url")) && Truthy(FieldsUrl(v)) ==> r == Some(Asset(FieldsUrl(v), FieldsTitle(v)))
    ensures var v := ParamValue(component, paramId);
      r.None? <==> !Truthy(Get(v, "url")) && !Truthy(FieldsUrl(v))
  {
    var v := ParamValue(component, paramId);
    if Truthy(v) then
      if Truthy(Get(v, "url")) then Some(Asset(Get(v, "url"), Get(v, "title")))
      else if Truthy(FieldsUrl(v)) then Some(Asset(FieldsUrl(v), FieldsTitle(v)))
      else None
    else None
  }
}
