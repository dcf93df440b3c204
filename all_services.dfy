/**
 * The services grid: a fixed table of sixteen services, one tile per service
 * in table order, and the press dispatch that opens two of them in the
 * in-app browser and sends every other one to the detail screen.
 */
module AllServices {
  import opened Navigation

  datatype ServiceItem = ServiceItem(id: string, labelText: string, icon: string)

  const SERVICES: seq<ServiceItem> := [
    ServiceItem("enroll", "Enroll Now", "\U{270F}\U{FE0F}"),
    ServiceItem("tour", "Schedule a Tour", "\U{1F5FA}\U{FE0F}"),
    ServiceItem("videos", "Videos", "\U{25B6}\U{FE0F}"),
    ServiceItem("programs", "Programs", "\U{1F6E0}\U{FE0F}"),
    ServiceItem("campus", "Campus Locations", "\U{1F3EB}"),
    ServiceItem("education", "Education Model", "\U{1F4BB}"),
    ServiceItem("calendar", "Academic Calendar", "\U{1F4C5}"),
    ServiceItem("aid", "Financial Aid", "\U{1F4B5}"),
    ServiceItem("scholarships", "Scholarships & Grants", "\U{1F4B0}"),
    ServiceItem("housing", "Housing Assistance", "\U{1F3E0}"),
    ServiceItem("career", "Career Services", "\U{1F4BC}"),
    ServiceItem("events", "UTI Events", "\U{2B50}"),
    ServiceItem("military", "Military &", "\U{1F1FA}\U{1F1F8}"),
    ServiceItem("store", "Online Store", "\U{1F3EC}"),
    ServiceItem("request", "Request Info", "\U{1F465}"),
    ServiceItem("chat", "Have a", "\U{1F4AC}")
  ]

  const ENROLL_URL := "https://example.com/enroll"
  const TOUR_URL := "https://example.com/schedule-tour"

  /**
   * `handlePress`: 'enroll' and 'tour' open their page in the browser and do
   * not navigate; every other service pushes the detail route with its id and
   * label.
   */
  function HandlePress(service: ServiceItem): (a: Action)
    ensures service.id == "enroll" ==> a == OpenBrowser(ENROLL_URL)
    ensures service.id == "tour" ==> a == OpenBrowser(TOUR_URL)
    ensures a.OpenBrowser? <==> service.id in {"enroll", "tour"}
    ensures !a.OpenBrowser? ==> a == Push(SERVICE_DETAIL_ROUTE, ServiceParams(service.id, service.labelText))
  {
    if service.id == "enroll" then OpenBrowser(ENROLL_URL)
    else if service.id == "tour" then OpenBrowser(TOUR_URL)
    else Push(SERVICE_DETAIL_ROUTE, ServiceParams(service.id, service.labelText))
  }

  /** One tile of the grid: its list key, icon, label and press action. */
  datatype Tile = Tile(key: string, icon: string, caption: string, onPress: Action)

  /** `SERVICES.map(...)`: one tile per service, in order, keyed by the id. */
  function Tiles(services: seq<ServiceItem>): (r: seq<Tile>)
    ensures |r| == |services|
    ensures forall i :: 0 <= i < |services| ==>
      r[i] == Tile(services[i].id, services[i].icon, services[i].labelText, HandlePress(services[i]))
  {
    if services == [] then []
    else
      var s := services[0];
      [Tile(s.id, s.icon, s.labelText, HandlePress(s))] + Tiles(services[1..])
  }

  /**
   * The ids of the table, in order, as a plain literal: the distinctness
   * lemmas reason about it cheaply, and `ServicesTable` ties it to `SERVICES`.
   */
  const SERVICE_IDS: seq<string> := ["enroll", "tour", "videos", "programs", "campus", "education",
    "calendar", "aid", "scholarships", "housing", "career", "events", "military", "store",
    "request", "chat"]

  /** The table: sixteen services with these ids in this order, each with a non-empty label. */
  lemma ServicesTable()
    ensures |SERVICES| == |SERVICE_IDS| == 16
    ensures forall i :: 0 <= i < |SERVICES| ==> SERVICES[i].id == SERVICE_IDS[i]
    ensures forall i :: 0 <= i < |SERVICES| ==> SERVICES[i].labelText != ""
  {
  }

  lemma IdListDistinct()
    ensures forall i, j :: 0 <= i < j < |SERVICE_IDS| ==> SERVICE_IDS[i] != SERVICE_IDS[j]
  {
  }

  /** The ids are pairwise distinct. */
  lemma ServiceIdsDistinct()
    ensures forall i, j :: 0 <= i < j < |SERVICES| ==> SERVICES[i].id != SERVICES[j].id
  {
    ServicesTable();
    IdListDistinct();
  }

  /** Tiles of services with distinct ids have distinct keys, so the grid's keys are unique. */
  lemma TileKeysDistinct(services: seq<ServiceItem>)
    requires forall i, j :: 0 <= i < j < |services| ==> services[i].id != services[j].id
    ensures forall i, j :: 0 <= i < j < |services| ==> Tiles(services)[i].key != Tiles(services)[j].key
  {
  }

  /** Exactly the first two services open the browser; the other fourteen navigate to the detail screen. */
  lemma OnlyFirstTwoOpenBrowser()
    ensures forall i :: 0 <= i < |SERVICES| ==> (HandlePress(SERVICES[i]).OpenBrowser? <==> i < 2)
    ensures forall i :: 2 <= i < |SERVICES| ==> HandlePress(SERVICES[i]).Push?
  {
    ServicesTable();
  }
}
