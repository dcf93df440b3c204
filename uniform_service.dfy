/**
 * The fetch service: it wraps the CMS client and turns a route path or a
 * composition id into a composition, choosing the preview or the published
 * state and trying two slug spellings of a path in turn.
 *
 * The CMS itself is a parameter (`Cms`): three lookups that, for the client
 * settings a request is sent with, answer with a composition, with none, or
 * by throwing.
 */
module UniformService {
  import opened Wrappers
  import opened JsValue
  import opened JsString
  import opened Composition
  import opened UniformConfig

  /** The host used when the config gives none. */
  const DEFAULT_API_HOST := "https://api.uniform.app"

  /** The CMS state of drafts, requested in preview. */
  const PREVIEW_STATE := 0

  /** The CMS state of published compositions. */
  const PUBLISHED_STATE := 64

  /** The settings the client is created with and sends with every request. */
  datatype ClientSettings = ClientSettings(apiKey: Value, projectId: Value, apiHost: Value)

  /** The outcome of fetching one composition. */
  datatype Response =
    | Found(composition: Node)   // the response carries a composition
    | Empty                      // the response carries none
    | Failure                    // the call threw

  /** The outcome of `getCompositionList`: a thrown error, or a response whose list may be missing. */
  datatype ListResponse = ListFailure | Listed(compositions: Option<seq<Value>>)

  /** The CMS as the client sees it: lookup by slug and state, by id and state, and the list. */
  datatype Cms = Cms(
    bySlug: (ClientSettings, string, int) -> Response,
    byId: (ClientSettings, string, int) -> Response,
    list: ClientSettings -> ListResponse)

  /** The options callers pass; `forceRefresh` is accepted and never read. */
  datatype FetchOptions = FetchOptions(preview: Option<bool>, forceRefresh: Option<bool>)

  /** The requested state: 0 in preview, 64 otherwise (including without options). */
  function State(options: Option<FetchOptions>): (s: int)
    ensures s == PREVIEW_STATE <==> options.Some? && options.value.preview == Some(true)
    ensures s != PREVIEW_STATE ==> s == PUBLISHED_STATE
  {
    if options.Some? && options.value.preview == Some(true) then PREVIEW_STATE else PUBLISHED_STATE
  }

  /** `forceRefresh` has no effect on the request. */
  lemma ForceRefreshIgnored(preview: Option<bool>, a: Option<bool>, b: Option<bool>)
    ensures State(Some(FetchOptions(preview, a))) == State(Some(FetchOptions(preview, b)))
  {
  }

  /**
   * The slugs tried for a path: '/' then '' for the empty path; otherwise
   * '/' followed by the segments joined with '/mobile', then the segments
   * joined with '/'.
   */
  function SlugVariants(path: seq<string>): (r: seq<string>)
    ensures |r| == 2
    ensures path == [] ==> r == ["/", ""]
    ensures path != [] ==> r[0] == "/" + Join(path, "/mobile") && r[1] == Join(path, "/")
    ensures |path| == 1 ==> r == ["/" + path[0], path[0]]
  {
    [ if |path| > 0 then "/" + Join(path, "/mobile") else "/",
      if |path| > 0 then Join(path, "/") else "" ]
  }

  /** The first spelling of a multi-segment path splices '/mobile' between segments. */
  lemma MultiSegmentSlug()
    ensures SlugVariants(["a", "b"]) == ["/a/mobileb", "a/b"]
    ensures SlugVariants(["about"]) == ["/about", "about"]
  {
    var ab := ["a", "b"];
    assert ab[1..] == ["b"];
    assert Join(ab, "/mobile") == "a/mobileb";
    assert Join(ab, "/") == "a/b";
    assert Join(["about"], "/mobile") == "about";
    assert SlugVariants(ab) == ["/" + "a/mobileb", "a/b"];
    assert "/" + "a/mobileb" == "/a/mobileb";
    assert SlugVariants(["about"]) == ["/" + "about", "about"];
    assert "/" + "about" == "/about";
  }

  /** The second spelling of a normalised path splits back into the same segments. */
  lemma SecondVariantRoundTrips(path: seq<string>)
    requires IsSegmentList(path)
    ensures Segments(SlugVariants(path)[1]) == path
  {
    if path == [] {
      assert Split("", '/') == [""];
    } else {
      SegmentsOfJoin(path);
    }
  }

  /** The composition of the first slug, in order, whose lookup finds one. */
  function FirstFound(cms: Cms, settings: ClientSettings, slugs: seq<string>, state: int): Option<Node> {
    if slugs == [] then None
    else match cms.bySlug(settings, slugs[0], state)
      case Found(n) => Some(n)
      case _ => FirstFound(cms, settings, slugs[1..], state)
  }

  /** Whether a slug's lookup finds a composition. */
  predicate Finds(cms: Cms, settings: ClientSettings, slug: string, state: int) {
    cms.bySlug(settings, slug, state).Found?
  }

  /**
   * `FirstFound` gives the composition of slug `i` exactly when slug `i` finds
   * it and no earlier slug finds anything; it gives nothing exactly when no
   * slug finds anything (an error and an empty answer alike move on).
   */
  lemma {:induction false} FirstFoundCharacterised(cms: Cms, settings: ClientSettings, slugs: seq<string>, state: int)
    ensures FirstFound(cms, settings, slugs, state).None? <==>
      forall i :: 0 <= i < |slugs| ==> !Finds(cms, settings, slugs[i], state)
    ensures FirstFound(cms, settings, slugs, state).Some? ==>
      exists i :: 0 <= i < |slugs| && cms.bySlug(settings, slugs[i], state) == Found(FirstFound(cms, settings, slugs, state).value)
        && forall j :: 0 <= j < i ==> !Finds(cms, settings, slugs[j], state)
  {
    if slugs != [] {
      FirstFoundCharacterised(cms, settings, slugs[1..], state);
      if !Finds(cms, settings, slugs[0], state) {
        var r := FirstFound(cms, settings, slugs, state);
        if r.Some? {
          var i :| 0 < i + 1 <= |slugs[1..]| && cms.bySlug(settings, slugs[1..][i], state) == Found(r.value)
            && forall j :: 0 <= j < i ==> !Finds(cms, settings, slugs[1..][j], state);
          assert cms.bySlug(settings, slugs[i + 1], state) == Found(r.value);
          assert forall j :: 0 <= j < i + 1 ==> !Finds(cms, settings, slugs[j], state) by {
            forall j | 0 <= j < i + 1 ensures !Finds(cms, settings, slugs[j], state) {
              if j > 0 { assert slugs[j] == slugs[1..][j - 1]; }
            }
          }
        }
        forall i | 0 <= i < |slugs[1..]| ensures slugs[1..][i] == slugs[i + 1] { }
      }
    }
  }

  /** The host the client uses: the configured one if truthy, else the default. */
  function ClientHost(config: Config): (host: Value)
    ensures Truthy(host)
    ensures Truthy(config.apiHost) ==> host == config.apiHost
    ensures !Truthy(config.apiHost) ==> host == Str(DEFAULT_API_HOST)
  {
    Or(config.apiHost, Str(DEFAULT_API_HOST))
  }

  /** One entry of the route list: `path || slug || ''`, each field first defaulted to ''. */
  function RouteOf(entry: Value): (r: Value)
    requires !Nullish(entry)
    ensures Truthy(Get(entry, "path")) ==> r == Get(entry, "path")
    ensures !Truthy(Get(entry, "path")) && Truthy(Get(entry, "slug")) ==> r == Get(entry, "slug")
    ensures !Truthy(Get(entry, "path")) && !Truthy(Get(entry, "slug")) ==> r == Str("")
  {
    var path := Or(Get(entry, "path"), Str(""));
    var slug := Or(Get(entry, "slug"), Str(""));
    Or(Or(path, slug), Str(""))
  }

  /** `.map(RouteOf).filter(Boolean)` over entries none of which is null or undefined. */
  function Routes(entries: seq<Value>): (r: seq<Value>)
    requires forall i :: 0 <= i < |entries| ==> !Nullish(entries[i])
    ensures |r| <= |entries|
    ensures forall i :: 0 <= i < |r| ==> Truthy(r[i])
  {
    if entries == [] then []
    else
      var head := RouteOf(entries[0]);
      if Truthy(head) then [head] + Routes(entries[1..]) else Routes(entries[1..])
  }

  /** A value is in the route list exactly when some entry's route is that value and it is truthy. */
  lemma {:induction false} RoutesMembership(entries: seq<Value>, x: Value)
    requires forall i :: 0 <= i < |entries| ==> !Nullish(entries[i])
    ensures x in Routes(entries) <==> Truthy(x) && exists i :: 0 <= i < |entries| && RouteOf(entries[i]) == x
  {
    if entries != [] {
      var tail := entries[1..];
      RoutesMembership(tail, x);
      if x in Routes(entries) {
        if x != RouteOf(entries[0]) {
          var i :| 0 <= i < |tail| && RouteOf(tail[i]) == x;
          assert RouteOf(entries[i + 1]) == x;
        }
      }
      if Truthy(x) && exists i :: 0 <= i < |entries| && RouteOf(entries[i]) == x {
        var i :| 0 <= i < |entries| && RouteOf(entries[i]) == x;
        if i > 0 {
          assert RouteOf(tail[i - 1]) == x;
        }
      }
    }
  }

  /** The route list keeps the order of the entries: it distributes over concatenation. */
  lemma {:induction false} RoutesOfConcat(a: seq<Value>, b: seq<Value>)
    requires forall i :: 0 <= i < |a| ==> !Nullish(a[i])
    requires forall i :: 0 <= i < |b| ==> !Nullish(b[i])
    ensures forall i :: 0 <= i < |a + b| ==> !Nullish((a + b)[i])
    ensures Routes(a + b) == Routes(a) + Routes(b)
  {
    assert forall i :: 0 <= i < |a + b| ==> (a + b)[i] == (if i < |a| then a[i] else b[i - |a|]);
    if a != [] {
      RoutesOfConcat(a[1..], b);
      assert (a + b)[1..] == a[1..] + b;
    } else {
      assert a + b == b;
    }
  }

  /** When every entry yields a route, the list is exactly the routes in entry order. */
  lemma {:induction false} RoutesKeepAll(entries: seq<Value>)
    requires forall i :: 0 <= i < |entries| ==> !Nullish(entries[i]) && Truthy(RouteOf(entries[i]))
    ensures |Routes(entries)| == |entries|
    ensures forall i :: 0 <= i < |entries| ==> Routes(entries)[i] == RouteOf(entries[i])
  {
    if entries != [] {
      RoutesKeepAll(entries[1..]);
    }
  }

  /** Whether some entry of the list is null or undefined. */
  predicate HasNullishEntry(entries: seq<Value>) {
    exists i :: 0 <= i < |entries| && Nullish(entries[i])
  }

  /**
   * `fetchRoutes`: the routes of the listed entries; [] on an error, on a
   * missing list, and when an entry is null or undefined (reading its `path`
   * throws, and the error is caught).
   */
  function RoutesOf(response: ListResponse): (r: seq<Value>)
    ensures response.ListFailure? ==> r == []
    ensures response.Listed? && response.compositions.None? ==> r == []
    ensures response.Listed? && response.compositions.Some? && HasNullishEntry(response.compositions.value) ==> r == []
    ensures response.Listed? && response.compositions.Some? && !HasNullishEntry(response.compositions.value) ==>
      r == Routes(response.compositions.value)
    ensures forall i :: 0 <= i < |r| ==> Truthy(r[i])
  {
    match response
    case ListFailure => []
    case Listed(None) => []
    case Listed(Some(entries)) =>
      if HasNullishEntry(entries) then [] else Routes(entries)
  }

  /** The service object: a client created once from the config. */
  class Service {
    var client: ClientSettings

    /** The client gets the key and project id as given and the host defaulted. */
    constructor (config: Config)
      ensures client == ClientSettings(config.apiKey, config.projectId, ClientHost(config))
    {
      client := ClientSettings(config.apiKey, config.projectId, ClientHost(config));
    }

    /**
     * `fetchCompositionByRoute`: try the slug variants in order and return the
     * first composition found; an error or an empty answer moves on to the
     * next variant, and later variants are not queried. `queried` records the
     * slugs asked for.
     */
    method FetchCompositionByRoute(path: seq<string>, options: Option<FetchOptions>, cms: Cms)
      returns (r: Option<Node>, ghost queried: seq<string>)
      ensures r == FirstFound(cms, client, SlugVariants(path), State(options))
      ensures queried <= SlugVariants(path)
      ensures forall j :: 0 <= j < |queried| - 1 ==> !Finds(cms, client, queried[j], State(options))
      ensures r.Some? ==>
        |queried| >= 1 && cms.bySlug(client, queried[|queried| - 1], State(options)) == Found(r.value)
      ensures r.None? ==> queried == SlugVariants(path)
      ensures r.None? ==> forall j :: 0 <= j < |queried| ==> !Finds(cms, client, queried[j], State(options))
    {
      var state := State(options);
      var slugVariants := SlugVariants(path);
      queried := [];
      for i := 0 to |slugVariants|
        invariant queried == slugVariants[..i]
        invariant forall j :: 0 <= j < i ==> !Finds(cms, client, slugVariants[j], state)
        invariant FirstFound(cms, client, slugVariants, state) == FirstFound(cms, client, slugVariants[i..], state)
      {
        var slug := slugVariants[i];
        var response := cms.bySlug(client, slug, state);
        queried := queried + [slug];
        assert slugVariants[i..][1..] == slugVariants[i + 1..];
        if response.Found? {
          r := Some(response.composition);
          return;
        }
      }
      r := None;
    }

    /** `fetchCompositionById`: the composition, or null when the answer lacks one or the call throws. */
    method FetchCompositionById(compositionId: string, options: Option<FetchOptions>, cms: Cms)
      returns (r: Option<Node>)
      ensures cms.byId(client, compositionId, State(options)).Found? ==>
        r == Some(cms.byId(client, compositionId, State(options)).composition)
      ensures !cms.byId(client, compositionId, State(options)).Found? ==> r == None
    {
      var response := cms.byId(client, compositionId, State(options));
      match response
      case Found(n) => r := Some(n);
      case Empty => r := None;
      case Failure => r := None;
    }

    /** `fetchRoutes`: the route list of the current composition list. */
    method FetchRoutes(cms: Cms) returns (routes: seq<Value>)
      ensures routes == RoutesOf(cms.list(client))
    {
      var response := cms.list(client);
      match response
      case ListFailure => routes := [];
      case Listed(None) => routes := [];
      case Listed(Some(entries)) =>
        if HasNullishEntry(entries) {
          routes := [];
        } else {
          routes := Routes(entries);
        }
    }
  }

  /** With neither the config nor the environment giving a host, the client talks to the default host. */
  lemma DefaultHostWhenUnconfigured(src: ConfigSources)
    requires !Truthy(Get(Extra(src), "uniformApiHost")) && !Truthy(src.envApiHost)
    ensures ClientHost(GetUniformConfig(src).config) == Str(DEFAULT_API_HOST)
  {
  }
}
