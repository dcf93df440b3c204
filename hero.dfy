/**
 * The hero renderer: five optional elements drawn from the instance's
 * parameters, and the press handler of its call-to-action button.
 */
module Hero {
  import opened JsValue
  import opened JsString
  import opened ComponentProps
  import opened Navigation
  import opened Composition
  import opened ParameterHelpers

  /** The values the hero derives from its parameters. */
  datatype HeroFields = HeroFields(
    title: Value,
    description: Value,
    eyebrow: Value,
    primaryCta: Value,
    primaryCtaLink: Value,
    image: Value)

  /** The elements the hero draws, in the order it draws them. */
  datatype HeroItem =
    | Eyebrow(text: Value)
    | Title(text: Value)
    | Description(text: Value)
    | Image(uri: Value)
    | Button(caption: Value, onPress: Action)

  /**
   * The four text parameters default to '' when falsy; the link and the
   * image are read as they are.
   */
  function HeroFieldsOf(p: Props): (h: HeroFields)
    ensures h.title == Or(GetParameter(p, "title"), Str(""))
    ensures h.description == Or(GetParameter(p, "description"), Str(""))
    ensures h.eyebrow == Or(GetParameter(p, "eyebrow"), Str(""))
    ensures h.primaryCta == Or(GetParameter(p, "primaryCta"), Str(""))
    ensures h.primaryCtaLink == GetParameter(p, "primaryCtaLink")
    ensures h.image == GetParameter(p, "image")
    ensures !Truthy(h.title) ==> h.title == Str("")
    ensures !Truthy(h.eyebrow) ==> h.eyebrow == Str("")
    ensures !Truthy(h.description) ==> h.description == Str("")
    ensures !Truthy(h.primaryCta) ==> h.primaryCta == Str("")
  {
    HeroFields(
      Or(GetParameter(p, "title"), Str("")),
      Or(GetParameter(p, "description"), Str("")),
      Or(GetParameter(p, "eyebrow"), Str("")),
      Or(GetParameter(p, "primaryCta"), Str("")),
      GetParameter(p, "primaryCtaLink"),
      GetParameter(p, "image"))
  }

  /**
   * `handlePress`: nothing unless the link's path is truthy; nothing for a
   * link of type 'url'; otherwise a push of the composition route with the
   * path's non-empty segments. A truthy path that is not a string makes the
   * `split` call throw.
   */
  function HandlePress(link: Value): (a: Action)
    ensures !Truthy(Get(link, "path")) ==> a == NoOp
    ensures Get(link, "type") == Str("url") ==> a == NoOp
    ensures a.Push? <==> Truthy(Get(link, "path")) && Get(link, "path").Str? && Get(link, "type") != Str("url")
    ensures a.Push? ==> a == Push(COMPOSITION_ROUTE, PathParams(Segments(Get(link, "path").s)))
    ensures a == Throws <==> Truthy(Get(link, "path")) && !Get(link, "path").Str? && Get(link, "type") != Str("url")
    ensures !a.OpenBrowser?
  {
    var path := Get(link, "path");
    if Truthy(path) then
      if Get(link, "type") == Str("url") then NoOp
      else if path.Str? then Push(COMPOSITION_ROUTE, PathParams(Segments(path.s)))
      else Throws
    else NoOp
  }

  /** The position of each kind of element in the hero's layout. */
  function Rank(item: HeroItem): nat {
    match item
    case Eyebrow(_) => 0
    case Title(_) => 1
    case Description(_) => 2
    case Image(_) => 3
    case Button(_, _) => 4
  }

  /** Whether the hero shows the element of rank `k`. */
  predicate Shows(h: HeroFields, k: nat) {
    if k == 0 then Truthy(h.eyebrow)
    else if k == 1 then Truthy(h.title)
    else if k == 2 then Truthy(h.description)
    else if k == 3 then Truthy(Get(h.image, "url"))
    else if k == 4 then Truthy(h.primaryCta)
    else false
  }

  /** The element of rank `k` the hero would show. */
  function ItemAt(h: HeroFields, k: nat): (item: HeroItem)
    requires k < 5
    ensures Rank(item) == k
  {
    if k == 0 then Eyebrow(h.eyebrow)
    else if k == 1 then Title(h.title)
    else if k == 2 then Description(h.description)
    else if k == 3 then Image(Get(h.image, "url"))
    else Button(h.primaryCta, HandlePress(h.primaryCtaLink))
  }

  /** The elements of rank `k` and above that the hero shows, in rank order. */
  function ItemsFrom(h: HeroFields, k: nat): (r: seq<HeroItem>)
    requires k <= 5
    decreases 5 - k
    ensures forall i :: 0 <= i < |r| ==> k <= Rank(r[i]) < 5 && r[i] == ItemAt(h, Rank(r[i]))
    ensures forall i, j :: 0 <= i < j < |r| ==> Rank(r[i]) < Rank(r[j])
    ensures forall j :: k <= j < 5 ==> (Shows(h, j) <==> ItemAt(h, j) in r)
  {
    if k == 5 then []
    else if Shows(h, k) then [ItemAt(h, k)] + ItemsFrom(h, k + 1)
    else ItemsFrom(h, k + 1)
  }

  /**
   * The hero's elements: eyebrow, title, description, image and button, each
   * present exactly when its value is truthy (the image when `image.url` is),
   * strictly in that order.
   */
  function HeroItems(h: HeroFields): (r: seq<HeroItem>)
    ensures forall i, j :: 0 <= i < j < |r| ==> Rank(r[i]) < Rank(r[j])
    ensures forall i :: 0 <= i < |r| ==> Rank(r[i]) < 5 && r[i] == ItemAt(h, Rank(r[i]))
    ensures forall k :: 0 <= k < 5 ==> (Shows(h, k) <==> ItemAt(h, k) in r)
  {
    ItemsFrom(h, 0)
  }

  /** Every text element the hero shows carries a truthy value. */
  lemma HeroTextsNonEmpty(p: Props)
    ensures forall item :: item in HeroItems(HeroFieldsOf(p)) && !item.Image? && !item.Button? ==>
      Truthy(item.text)
  {
    var h := HeroFieldsOf(p);
    var r := HeroItems(h);
    forall item | item in r && !item.Image? && !item.Button?
      ensures Truthy(item.text)
    {
      var i :| 0 <= i < |r| && r[i] == item;
      assert r[i] == ItemAt(h, Rank(r[i]));
    }
  }

  /** A pushed route's segments are already normalised: they survive a join and re-split. */
  lemma PushedPathIsNormalised(link: Value)
    requires HandlePress(link).Push?
    ensures IsSegmentList(HandlePress(link).params.path)
    ensures Segments(Join(HandlePress(link).params.path, "/")) == HandlePress(link).params.path
  {
    SegmentsOfJoin(HandlePress(link).params.path);
  }

  /**
   * The hero reads the image's top-level `url` only: an asset whose url sits
   * under `fields.url.value`, which `getAssetParameter` accepts, draws no image.
   */
  lemma {:induction false} HeroIgnoresAssetFieldsUrl(c: Node, context: Value)
    requires !Truthy(Get(ParamValue(c, "image"), "url")) && Truthy(FieldsUrl(ParamValue(c, "image")))
    ensures GetAssetParameter(c, "image").Some?
    ensures forall i :: 0 <= i < |HeroItems(HeroFieldsOf(BuildProps(c, context)))| ==>
      !HeroItems(HeroFieldsOf(BuildProps(c, context)))[i].Image?
  {
    var h := HeroFieldsOf(BuildProps(c, context));
    assert h.image == ParamValue(c, "image");
  }

  /**
   * The usual link shape `/a/b/...`: pressing a non-'url' link whose path is
   * a leading '/' followed by segments joined with '/' pushes exactly those
   * segments, in their order.
   */
  lemma {:induction false} AbsoluteLinkPushesItsSegments(link: Value, segs: seq<string>)
    requires IsSegmentList(segs)
    requires Get(link, "path") == Str("/" + Join(segs, "/")) && Get(link, "type") != Str("url")
    ensures HandlePress(link) == Push(COMPOSITION_ROUTE, PathParams(segs))
  {
    LeadingSlashSegments(segs);
  }
}
