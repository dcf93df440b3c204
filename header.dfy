/**
 * The header renderer: a brand name that is always shown and one optional
 * navigation item with its press handler. No registry entry maps a type tag
 * to it, so only a direct caller draws it.
 */
module Header {
  import opened Wrappers
  import opened JsValue
  import opened JsString
  import opened ComponentProps
  import opened Navigation
  import Hero

  /** The navigation item: its label and what pressing it does. */
  datatype NavItem = NavItem(caption: Value, onPress: Action)

  /** What the header draws, left to right. */
  datatype HeaderView = HeaderView(brand: Value, nav: Option<NavItem>)

  /** The brand used when `brandName` is falsy. */
  const DEFAULT_BRAND := "Brand"

  /**
   * `handleNavPress`: a push of the composition route with the path's
   * non-empty segments when `link.path` is truthy, nothing otherwise. The
   * link type is not consulted. A truthy path that is not a string makes the
   * `split` call throw.
   */
  function HandleNavPress(link: Value): (a: Action)
    ensures !Truthy(Get(link, "path")) ==> a == NoOp
    ensures a.Push? <==> Get(link, "path").Str? && Truthy(Get(link, "path"))
    ensures a.Push? ==> a == Push(COMPOSITION_ROUTE, PathParams(Segments(Get(link, "path").s)))
    ensures a == Throws <==> Truthy(Get(link, "path")) && !Get(link, "path").Str?
    ensures !a.OpenBrowser?
  {
    var path := Get(link, "path");
    if Truthy(path) then
      if path.Str? then Push(COMPOSITION_ROUTE, PathParams(Segments(path.s))) else Throws
    else NoOp
  }

  /**
   * The header: the brand name (defaulting to 'Brand') and, only when both the
   * label and the link are truthy, the navigation item.
   */
  function HeaderOf(p: Props): (v: HeaderView)
    ensures Truthy(v.brand)
    ensures Truthy(GetParameter(p, "brandName")) ==> v.brand == GetParameter(p, "brandName")
    ensures !Truthy(GetParameter(p, "brandName")) ==> v.brand == Str(DEFAULT_BRAND)
    ensures v.nav.Some? <==> Truthy(GetParameter(p, "navPrimaryLabel")) && Truthy(GetParameter(p, "navPrimaryLink"))
    ensures v.nav.Some? ==> v.nav.value.caption == GetParameter(p, "navPrimaryLabel")
    ensures v.nav.Some? ==> v.nav.value.onPress == HandleNavPress(GetParameter(p, "navPrimaryLink"))
  {
    var navLabel := GetParameter(p, "navPrimaryLabel");
    var link := GetParameter(p, "navPrimaryLink");
    HeaderView(
      Or(GetParameter(p, "brandName"), Str(DEFAULT_BRAND)),
      if Truthy(navLabel) && Truthy(link) then Some(NavItem(navLabel, HandleNavPress(link))) else None)
  }

  /**
   * The header and the hero navigate alike for every link that is not of
   * type 'url'; for a 'url' link with a truthy path the hero does nothing
   * while the header still pushes or throws.
   */
  lemma HeaderAgreesWithHero(link: Value)
    ensures Get(link, "type") != Str("url") ==> HandleNavPress(link) == Hero.HandlePress(link)
    ensures Get(link, "type") == Str("url") && Truthy(Get(link, "path")) ==>
      Hero.HandlePress(link) == NoOp && HandleNavPress(link) != NoOp
  {
  }
}
