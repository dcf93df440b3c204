/**
 * The composition screen: it reads the route parameters, loads a
 * composition through the fetch service (by id when one is given, else by
 * path), keeps the loading, refreshing and error state, reloads when the
 * parameters change, on focus after the first second and on pull-to-refresh,
 * and picks what to draw: a spinner, an error text or the rendered tree.
 *
 * React's state hooks become the fields of `Screen`; each effect or callback
 * becomes a method. A load's two halves (before and after the awaited fetch)
 * are `BeginLoad` and `FinishLoad`; `Load` runs them with the service between.
 */
module CompositionScreen {
  import opened Wrappers
  import opened JsValue
  import opened JsString
  import opened Composition
  import opened Navigation
  import opened Hero
  import opened Render
  import opened UniformService

  /** The router's `path` parameter: absent, one string, or the catch-all's segments. */
  datatype PathParam = NoPath | PathStr(s: string) | PathArr(segs: seq<string>)

  /** The route parameters the screen reads. */
  datatype ScreenParams = ScreenParams(path: PathParam, compositionId: Option<string>, preview: Option<string>)

  /** What the effect compares between runs: `JSON.stringify({ path, compositionId })`. */
  datatype ParamKey = ParamKey(path: PathParam, compositionId: Option<string>)

  /** What the load's `catch` receives: an `Error` with its message, or any other thrown value. */
  datatype Thrown = ErrorObject(message: string) | NonError

  /** How the awaited fetch ended. */
  datatype Outcome = Returned(comp: Option<Node>) | Threw(thrown: Thrown)

  /** What the screen draws; the two scrolling views carry the refresh indicator. */
  datatype ScreenView =
    | Spinner
    | ErrorView(text: string, refreshing: bool)
    | Content(tree: View, refreshing: bool)

  const FAILED_TO_LOAD := "Failed to load composition"
  const NOT_FOUND := "Composition not found"

  /** The route parameters a navigation action opens the screen with. */
  function ParamsOfRoute(params: RouteParams): (s: ScreenParams)
    ensures params.PathParams? ==> s.path == PathArr(params.path)
    ensures s.compositionId.None? && s.preview.None?
  {
    match params
    case PathParams(path) => ScreenParams(PathArr(path), None, None)
    case ServiceParams(_, _) => ScreenParams(NoPath, None, None)
  }

  /** Whether a composition id is given: `if (params.compositionId)`. */
  predicate HasCompositionId(params: ScreenParams) {
    params.compositionId.Some? && params.compositionId.value != ""
  }

  /** Preview is on only for the exact string 'true'. */
  predicate IsPreview(params: ScreenParams) {
    params.preview == Some("true")
  }

  /** The segments the path lookup receives: the array as given, a string split on '/' without empty pieces, else none. */
  function NormalizePath(path: PathParam): (segs: seq<string>)
    ensures path.PathArr? ==> segs == path.segs
    ensures path.PathStr? ==> IsSegmentList(segs) && segs == Segments(path.s)
    ensures path.NoPath? ==> segs == []
  {
    match path
    case NoPath => []
    case PathStr(s) => Segments(s)
    case PathArr(a) => a
  }

  /** The path shown in the not-found message: the array joined with '/', a non-empty string as is, else 'root'. */
  function PathDisplay(path: PathParam): (r: string)
    ensures path.PathArr? ==> r == Join(path.segs, "/")
    ensures path.PathStr? && path.s != "" ==> r == path.s
    ensures path.NoPath? || path == PathStr("") ==> r == "root"
  {
    match path
    case PathArr(a) => Join(a, "/")
    case PathStr(s) => if s != "" then s else "root"
    case NoPath => "root"
  }

  const NOT_FOUND_PREFIX := "Composition not found for path: /"
  const NOT_FOUND_SUFFIX := ". Make sure the composition exists in Uniform and is published."

  /** The error set when the fetch returns nothing: the path display between a fixed prefix and suffix. */
  function NotFoundMessage(path: PathParam): (r: string)
    ensures |r| > 0
    ensures |r| == |NOT_FOUND_PREFIX| + |PathDisplay(path)| + |NOT_FOUND_SUFFIX|
    ensures r[..|NOT_FOUND_PREFIX|] == NOT_FOUND_PREFIX
    ensures r[|NOT_FOUND_PREFIX|..|NOT_FOUND_PREFIX| + |PathDisplay(path)|] == PathDisplay(path)
    ensures r[|NOT_FOUND_PREFIX| + |PathDisplay(path)|..] == NOT_FOUND_SUFFIX
  {
    NOT_FOUND_PREFIX + PathDisplay(path) + NOT_FOUND_SUFFIX
  }

  /** The error set when the load throws. */
  function ThrownMessage(thrown: Thrown): (r: string)
    ensures thrown.ErrorObject? ==> r == thrown.message
    ensures thrown.NonError? ==> r == FAILED_TO_LOAD
  {
    match thrown
    case ErrorObject(m) => m
    case NonError => FAILED_TO_LOAD
  }

  /** The options the screen passes: preview from the parameters, and whether this is a forced refresh. */
  function OptionsOf(params: ScreenParams, force: bool): FetchOptions {
    FetchOptions(Some(IsPreview(params)), Some(force))
  }

  /**
   * The composition a load obtains: by id when an id is given (the path is
   * then ignored), else the first slug variant of the normalised path that
   * finds one; draft state exactly in preview.
   */
  function Fetched(params: ScreenParams, settings: ClientSettings, cms: Cms): (r: Option<Node>)
    ensures HasCompositionId(params) ==>
      (r.Some? <==> cms.byId(settings, params.compositionId.value, State(Some(OptionsOf(params, false)))).Found?)
    ensures HasCompositionId(params) && cms.byId(settings, params.compositionId.value, State(Some(OptionsOf(params, false)))).Found? ==>
      r == Some(cms.byId(settings, params.compositionId.value, State(Some(OptionsOf(params, false)))).composition)
    ensures !HasCompositionId(params) ==>
      r == FirstFound(cms, settings, SlugVariants(NormalizePath(params.path)), State(Some(OptionsOf(params, false))))
  {
    var state := State(Some(OptionsOf(params, false)));
    if HasCompositionId(params) then
      match cms.byId(settings, params.compositionId.value, state)
      case Found(n) => Some(n)
      case _ => None
    else FirstFound(cms, settings, SlugVariants(NormalizePath(params.path)), state)
  }

  /** A given id decides the load alone: two parameter sets with the same id and preview flag fetch the same. */
  lemma IdTakesPrecedence(p: ScreenParams, q: ScreenParams, settings: ClientSettings, cms: Cms)
    requires HasCompositionId(p) && p.compositionId == q.compositionId && IsPreview(p) == IsPreview(q)
    ensures Fetched(p, settings, cms) == Fetched(q, settings, cms)
  {
  }

  /** Whether the error state is truthy (a non-empty message). */
  predicate ErrorShown(error: Option<string>) {
    error.Some? && error.value != ""
  }

  /**
   * The render decision: the spinner while loading with nothing to show;
   * else the error text (or a generic one) when there is an error or no
   * composition; else the rendered composition, with no context.
   */
  function SelectView(loading: bool, composition: Option<Node>, error: Option<string>, refreshing: bool): (v: ScreenView)
    ensures v.Spinner? <==> loading && composition.None?
    ensures v.Content? <==> composition.Some? && !ErrorShown(error)
    ensures v.Content? ==> v.tree == RenderComposition(composition, Undef) && v.refreshing == refreshing
    ensures v.ErrorView? ==> v.text != "" && v.refreshing == refreshing
    ensures v.ErrorView? ==> (ErrorShown(error) ==> v.text == error.value) && (!ErrorShown(error) ==> v.text == NOT_FOUND)
  {
    if loading && composition.None? then Spinner
    else if ErrorShown(error) || composition.None? then
      ErrorView(if ErrorShown(error) then error.value else NOT_FOUND, refreshing)
    else Content(RenderComposition(composition, Undef), refreshing)
  }

  /** An `Error` with an empty message leaves a previously loaded composition on screen. */
  lemma EmptyErrorKeepsOldContent(n: Node, refreshing: bool)
    ensures SelectView(false, Some(n), Some(ThrownMessage(ErrorObject(""))), refreshing).Content?
  {
  }

  /**
   * A hero press that navigates opens the screen with the pushed segments;
   * the screen looks them up unchanged, and its second slug spelling splits
   * back into them, so it names the hero link's path without empty pieces.
   */
  lemma {:induction false} HeroPushFetchesLinkPath(link: Value)
    requires HandlePress(link).Push?
    ensures var params := ParamsOfRoute(HandlePress(link).params);
      var segs := Segments(Get(link, "path").s);
      && NormalizePath(params.path) == segs
      && NormalizePath(PathStr(PathDisplay(params.path))) == segs
      && Segments(SlugVariants(NormalizePath(params.path))[1]) == segs
  {
    var segs := Segments(Get(link, "path").s);
    PushedPathIsNormalised(link);
    SecondVariantRoundTrips(segs);
  }

  /** The screen's state: React's `useState` and `useRef` values. */
  class Screen {
    var composition: Option<Node>
    var loading: bool
    var refreshing: bool
    var error: Option<string>
    var isInitialMount: bool
    /** The last compared parameters; `None` is the initial '' that no key equals. */
    var previousParams: Option<ParamKey>
    /** Whether the one-second timer of the last effect run is still pending. */
    var timerPending: bool

    /** A mounted screen that has not loaded yet. */
    constructor ()
      ensures composition == None && loading && !refreshing && error == None
      ensures isInitialMount && previousParams == None && !timerPending
      ensures View() == Spinner
    {
      composition := None;
      loading := true;
      refreshing := false;
      error := None;
      isInitialMount := true;
      previousParams := None;
      timerPending := false;
    }

    /** What the screen draws now. */
    function View(): ScreenView
      reads this
    {
      SelectView(loading, composition, error, refreshing)
    }

    /** The first half of `loadComposition`: raise the right indicator and clear the error. */
    method BeginLoad(force: bool)
      modifies this
      ensures force ==> refreshing && loading == old(loading)
      ensures !force ==> loading && refreshing == old(refreshing)
      ensures error == None && composition == old(composition)
      ensures isInitialMount == old(isInitialMount) && previousParams == old(previousParams)
      ensures timerPending == old(timerPending)
      ensures !force && composition.None? ==> View() == Spinner
      ensures composition.Some? ==> View() == Content(RenderComposition(composition, Undef), refreshing)
    {
      if force {
        refreshing := true;
      } else {
        loading := true;
      }
      error := None;
    }

    /**
     * The second half: keep a found composition, or set the not-found or the
     * thrown error (keeping the previous composition); then lower both
     * indicators.
     */
    method FinishLoad(outcome: Outcome, params: ScreenParams)
      modifies this
      ensures outcome == Returned(None) ==> composition == old(composition) && error == Some(NotFoundMessage(params.path))
      ensures outcome.Returned? && outcome.comp.Some? ==> composition == outcome.comp && error == old(error)
      ensures outcome.Threw? ==> composition == old(composition) && error == Some(ThrownMessage(outcome.thrown))
      ensures !loading && !refreshing
      ensures isInitialMount == old(isInitialMount) && previousParams == old(previousParams)
      ensures timerPending == old(timerPending)
    {
      match outcome {
        case Returned(Some(n)) =>
          composition := Some(n);
        case Returned(None) =>
          error := Some(NotFoundMessage(params.path));
        case Threw(thrown) =>
          error := Some(ThrownMessage(thrown));
      }
      loading := false;
      refreshing := false;
    }

    /** `loadComposition(force)` with the current parameters. */
    method Load(force: bool, params: ScreenParams, service: Service, cms: Cms)
      modifies this
      ensures Fetched(params, service.client, cms).Some? ==>
        composition == Fetched(params, service.client, cms) && error == None
      ensures Fetched(params, service.client, cms).None? ==>
        composition == old(composition) && error == Some(NotFoundMessage(params.path))
      ensures !loading && !refreshing
      ensures isInitialMount == old(isInitialMount) && previousParams == old(previousParams)
      ensures timerPending == old(timerPending)
      ensures Fetched(params, service.client, cms).Some? ==>
        View() == Content(RenderComposition(Fetched(params, service.client, cms), Undef), false)
      ensures Fetched(params, service.client, cms).None? ==>
        View() == ErrorView(NotFoundMessage(params.path), false)
    {
      BeginLoad(force);
      var comp: Option<Node>;
      if HasCompositionId(params) {
        comp := service.FetchCompositionById(params.compositionId.value, Some(OptionsOf(params, force)), cms);
      } else {
        ghost var queried;
        comp, queried := service.FetchCompositionByRoute(NormalizePath(params.path), Some(OptionsOf(params, force)), cms);
      }
      assert comp == Fetched(params, service.client, cms);
      FinishLoad(Returned(comp), params);
    }

    /**
     * One run of the parameters effect (it runs again whenever the path, the
     * id or the preview flag changes): the previous run's timer is cleared;
     * then, only if path or id differ from the last compared ones, they are
     * recorded, a non-forced load runs and a new timer is started.
     */
    method OnParamsChanged(params: ScreenParams, service: Service, cms: Cms)
      modifies this
      ensures previousParams == Some(ParamKey(params.path, params.compositionId))
      ensures isInitialMount == old(isInitialMount)
      ensures old(previousParams) == Some(ParamKey(params.path, params.compositionId)) ==>
        !timerPending && composition == old(composition) && error == old(error)
        && loading == old(loading) && refreshing == old(refreshing)
      ensures old(previousParams) != Some(ParamKey(params.path, params.compositionId)) ==>
        timerPending && !loading && !refreshing
        && (Fetched(params, service.client, cms).Some? ==> composition == Fetched(params, service.client, cms) && error == None)
        && (Fetched(params, service.client, cms).None? ==> composition == old(composition) && error == Some(NotFoundMessage(params.path)))
    {
      timerPending := false;
      var currentParams := ParamKey(params.path, params.compositionId);
      if previousParams != Some(currentParams) {
        previousParams := Some(currentParams);
        Load(false, params, service, cms);
        timerPending := true;
      }
    }

    /** The pending timer fires: the initial mount is over. */
    method TimerFired()
      modifies this
      ensures old(timerPending) ==> !isInitialMount
      ensures !old(timerPending) ==> isInitialMount == old(isInitialMount)
      ensures !timerPending
      ensures composition == old(composition) && error == old(error) && loading == old(loading)
      ensures refreshing == old(refreshing) && previousParams == old(previousParams)
    {
      if timerPending {
        isInitialMount := false;
        timerPending := false;
      }
    }

    /** The focus effect: a forced reload, except during the initial mount. */
    method OnFocus(params: ScreenParams, service: Service, cms: Cms)
      modifies this
      ensures old(isInitialMount) ==>
        composition == old(composition) && error == old(error)
        && loading == old(loading) && refreshing == old(refreshing)
      ensures !old(isInitialMount) ==>
        !loading && !refreshing
        && (Fetched(params, service.client, cms).Some? ==> composition == Fetched(params, service.client, cms) && error == None)
        && (Fetched(params, service.client, cms).None? ==> composition == old(composition) && error == Some(NotFoundMessage(params.path)))
      ensures isInitialMount == old(isInitialMount) && previousParams == old(previousParams)
      ensures timerPending == old(timerPending)
    {
      if !isInitialMount {
        Load(true, params, service, cms);
      }
    }

    /** Pull-to-refresh: a forced reload. */
    method OnRefresh(params: ScreenParams, service: Service, cms: Cms)
      modifies this
      ensures !loading && !refreshing
      ensures Fetched(params, service.client, cms).Some? ==> composition == Fetched(params, service.client, cms) && error == None
      ensures Fetched(params, service.client, cms).None? ==> composition == old(composition) && error == Some(NotFoundMessage(params.path))
      ensures isInitialMount == old(isInitialMount) && previousParams == old(previousParams)
      ensures timerPending == old(timerPending)
    {
      Load(true, params, service, cms);
    }
  }
}
