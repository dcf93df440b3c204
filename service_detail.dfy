/** The service detail screen: a title and a subtitle built from one label. */
module ServiceDetail {
  import opened Wrappers
  import opened Navigation
  import AllServices

  /** The route parameters the screen reads (each may be absent). */
  datatype DetailParams = DetailParams(id: Option<string>, labelText: Option<string>)

  /** What the screen draws. */
  datatype DetailView = DetailView(title: string, subtitle: string)

  const DEFAULT_LABEL := "Service"

  /** `params.label || params.id || 'Service'`. */
  function DetailLabel(params: DetailParams): (r: string)
    ensures r != ""
    ensures params.labelText.Some? && params.labelText.value != "" ==> r == params.labelText.value
    ensures !(params.labelText.Some? && params.labelText.value != "") && params.id.Some? && params.id.value != "" ==>
      r == params.id.value
    ensures !(params.labelText.Some? && params.labelText.value != "") && !(params.id.Some? && params.id.value != "") ==>
      r == DEFAULT_LABEL
  {
    if params.labelText.Some? && params.labelText.value != "" then params.labelText.value
    else if params.id.Some? && params.id.value != "" then params.id.value
    else DEFAULT_LABEL
  }

  function Subtitle(name: string): string {
    "This is a placeholder page for the \"" + name
      + "\" service. You can customize this screen with real content or navigation as needed."
  }

  /** The title and the quoted name in the subtitle are both the label. */
  function DetailScreen(params: DetailParams): (v: DetailView)
    ensures v.title == DetailLabel(params)
    ensures v.subtitle == Subtitle(v.title)
  {
    var name := DetailLabel(params);
    DetailView(name, Subtitle(name))
  }

  /** The params a push to the detail route carries, as the screen reads them. */
  function ParamsOf(params: RouteParams): DetailParams {
    match params
    case ServiceParams(id, labelText) => DetailParams(Some(id), Some(labelText))
    case PathParams(_) => DetailParams(None, None)
  }

  /**
   * Pressing any navigating service of the grid opens the detail screen
   * titled with that service's label.
   */
  lemma PressedServiceShowsItsLabel(i: nat)
    requires i < |AllServices.SERVICES|
    requires AllServices.HandlePress(AllServices.SERVICES[i]).Push?
    ensures AllServices.HandlePress(AllServices.SERVICES[i]).pathname == SERVICE_DETAIL_ROUTE
    ensures DetailScreen(ParamsOf(AllServices.HandlePress(AllServices.SERVICES[i]).params)).title
         == AllServices.SERVICES[i].labelText
  {
    AllServices.ServicesTable();
  }
}
