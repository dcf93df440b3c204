# A verified model of a CMS composition viewer

This project models the decision logic of a React Native app. The app
fetches *compositions* from a headless CMS and draws them as native screens.
A composition is a JSON tree of typed component instances. Each instance has
a type tag, an optional `_id`, a map of parameters and named slots of child
instances. The model covers:

- **JS values** (`JsValue`, `JsString`):
  - a `Value` datatype with JavaScript truthiness, `?.`, `||`, `??` and `typeof`;
  - `split`, `join` and `.filter(Boolean)`.
- **Parameter helpers** (`ParameterHelpers`): typed accessors for strings,
  links and assets, with their defaults and precedence.
- **Registry and tree walk** (`Resolver`, `ComponentProps`, `Render`):
  - the type-to-renderer registry;
  - the props each renderer receives;
  - the recursive render. `page` instances draw their `content` slot; every
    other instance is a leaf.
- **Fetch service** (`UniformService`):
  - the choice of draft or published state;
  - the two slug spellings tried for a path, first success winning;
  - lookup by id, and the projection of the route list;
  - a `Service` class whose constructor sets the client's host default.
- **Composition screen** (`CompositionScreen`):
  - a `Screen` class with the loading, refreshing, error and composition state;
  - the parameter de-duplication, the focus reload and pull-to-refresh;
  - the pure choice of spinner, error text or content.
- **Small renderers and screens** (`Hero`, `Header`, `AllServices`,
  `ServiceDetail`, `UniformConfig`): defaults, conditional elements and
  navigation decisions. Navigation is returned as an `Action` value:
  `Push(route, params)`, `OpenBrowser(url)`, `NoOp`, or `Throws` when the
  code would raise.

The CMS SDK is a parameter `Cms` that holds three functions. The two
composition lookups take the client settings, the slug or id, and the state,
and answer `Found(node) | Empty | Failure`. The list call takes only the
settings, and answers `ListFailure` or `Listed` with a list that may be
missing. The Expo
configuration and the environment variables are the inputs of
`GetUniformConfig`. The router, the in-app browser and the clock do not
appear: presses return actions, and timer and focus events are methods that
the environment calls.

The first slug spelling is modelled as written: `'/' + path.join('/mobile')`.
For one segment this is `/about`. For several it splices `/mobile` into the
text, so `['a','b']` gives `/a/mobileb` (`UniformService.MultiSegmentSlug`).
The code does not make clear which spelling was meant, so the model keeps
this one and states it.

## Model

| member | source | states |
|---|---|---|
| ParameterHelpers.ParamValue | utils/parameterHelpers.ts:8 | the parameter's `value`, or undefined when there is no parameter map or no such parameter |
| ParameterHelpers.GetStringParameter | utils/parameterHelpers.ts:3-13 | the stored value exactly when it is a non-empty string; the default in every other case (missing map or parameter, '', a value of another type) |
| ParameterHelpers.GetStringParameterOrEmpty | utils/parameterHelpers.ts:6 | with the default omitted, the result is non-empty iff the stored value is a non-empty string, and is then that value |
| ParameterHelpers.GetLinkParameter | utils/parameterHelpers.ts:15-28 | a link exactly for a truthy value whose `typeof` is 'object' (objects and arrays); null for strings, numbers, booleans, null and undefined |
| ParameterHelpers.LinkDefaults | utils/parameterHelpers.ts:21-25 | `path` is the stored path if truthy, else ''; `type` is the stored type if truthy, else 'internal', so it is never falsy |
| ParameterHelpers.GetAssetParameter | utils/parameterHelpers.ts:30-51 | a top-level `url` (with the top-level `title`) wins; otherwise `fields.url.value` (with `fields.title?.value`); null iff neither url is truthy; a returned url is never falsy |
| Resolver.ResolveComponent | components/resolver.tsx:19-52 | 'page' iff the container, 'hero' iff the hero, every other tag iff the fallback carrying that tag; no branch supplies props |
| Resolver.ResolveDependsOnlyOnType | components/resolver.tsx:22-24 | two instances with the same type tag resolve identically |
| Resolver.UnregisteredTypesFallBack | components/resolver.tsx:31-50 | 'header', 'footer' and 'productCard' reach the fallback |
| Resolver.FallbackText | components/resolver.tsx:43-48 | the fallback text is 'Unknown component type: ' followed by exactly the type tag |
| ComponentProps.BuildProps | components/CompositionRenderer.tsx:21-34 | `component` is the composition; `context` is the caller's if truthy, else `{}` (always truthy); a missing parameter map or slot map becomes empty |
| ComponentProps.GetParameter | components/CompositionRenderer.tsx:36-38 | `parameters[id].value` when the parameter exists, undefined otherwise |
| ComponentProps.GetSlot | components/CompositionRenderer.tsx:40-42 | the slot's instances as the JSON object denotes them (the last entry of a name wins), or [] when the slot is absent |
| Render.RenderComposition | components/CompositionRenderer.tsx:13-46 | a null composition draws nothing; an instance is drawn by `RenderNode` as a container, hero or fallback view |
| Render.RenderNode | components/CompositionRenderer.tsx:21-45 | the resolved renderer draws with the built props: a container view for 'page', the hero's elements for 'hero', and `Unknown component type: <tag>` for every other tag |
| Render.ContentSlot | components/Container.tsx:14 | the container's slot is `getSlot('content')`, which is [] when `slots` or `content` is missing |
| Render.SlotKey | components/UniformSlot.tsx:27 | the key is the `_id` when truthy, else `slot-<name>-<index>` |
| Render.UniformSlot | components/UniformSlot.tsx:14-34 | an empty slot draws nothing; a non-empty one draws exactly one child per element, in slot order, each with its key and rendered under the same context |
| Render.PositionalKeysDistinct | components/UniformSlot.tsx:27 | two id-less children of one slot never share a positional key |
| Render.ContainerDrawsContentSlot | components/Container.tsx:12-21 | a 'page' instance draws `UniformSlot` of its content slot, named "content", under the context it received |
| Render.ContainerIgnoresOtherSlots | components/Container.tsx:14-18 | adding a slot with any other name, to an instance with or without a slot object, leaves the container's drawing unchanged |
| Render.WalkDrawsReachable | components/Container.tsx:14-18 | the whole walk draws exactly the instances reachable through `content` slots of 'page' instances, in pre-order |
| Render.ChildrenDrawReachable | components/UniformSlot.tsx:25-31 | a slot's children draw the reachable instances of each element in turn |
| Render.ContextReachesEveryElement | components/CompositionRenderer.tsx:32 | every element of the tree is drawn with the root's context, or `{}` when the root's context is falsy |
| Render.ChildrenKeepContext | components/UniformSlot.tsx:29 | every child of a slot receives the context unchanged |
| UniformService.State | services/uniformService.ts:27 | state 0 exactly when `preview` is true; 64 otherwise, including without options |
| UniformService.ForceRefreshIgnored | services/uniformService.ts:23-27 | `forceRefresh` does not change the requested state |
| UniformService.SlugVariants | services/uniformService.ts:30-33 | ['/', ''] for the empty path; otherwise '/' plus the segments joined with '/mobile', then the segments joined with '/'; ['/x', 'x'] for one segment |
| UniformService.MultiSegmentSlug | services/uniformService.ts:31-32 | ['a','b'] gives '/a/mobileb' and 'a/b'; ['about'] gives '/about' and 'about' |
| UniformService.SecondVariantRoundTrips | services/uniformService.ts:32 | for a path whose segments are non-empty and contain no '/', the second spelling splits back into the same path |
| UniformService.FirstFoundCharacterised | services/uniformService.ts:35-85 | the result is the composition of the first slug that finds one, with no earlier slug finding anything; it is null exactly when no slug finds one (errors and empty answers alike move on) |
| UniformService.ClientHost | services/uniformService.ts:16 | the configured host if truthy, else 'https://api.uniform.app'; never falsy |
| UniformService.DefaultHostWhenUnconfigured | services/uniformService.ts:16 | with no host from the Expo config or the environment, the client uses the default host |
| UniformService.RouteOf | services/uniformService.ts:114-122 | an entry's route is its `path` if truthy, else its `slug` if truthy, else '' |
| UniformService.Routes | services/uniformService.ts:114-123 | the route list has no falsy route and is no longer than the entry list |
| UniformService.RoutesMembership | services/uniformService.ts:123 | a value is listed iff it is truthy and is the route of some entry |
| UniformService.RoutesOfConcat | services/uniformService.ts:114-123 | the projection keeps entry order: the routes of a concatenation are the concatenation of the routes |
| UniformService.RoutesKeepAll | services/uniformService.ts:114-123 | when every entry has a truthy route, the list is exactly those routes, index for index |
| UniformService.RoutesOf | services/uniformService.ts:111-131 | [] on a thrown error, on a missing list, and when an entry is null or undefined (reading its `path` throws); otherwise exactly the `Routes` projection of the entries |
| UniformService.Service.constructor | services/uniformService.ts:12-18 | the client gets the key and project id as given and the host with its default |
| UniformService.Service.FetchCompositionByRoute | services/uniformService.ts:23-86 | the loop returns the first found composition of the slug variants in order, queries no variant after it, and returns null only after every variant failed |
| UniformService.Service.FetchCompositionById | services/uniformService.ts:91-106 | the composition when the answer has one; null when it has none or the call throws |
| UniformService.Service.FetchRoutes | services/uniformService.ts:111-131 | the route list of the current composition list, as `RoutesOf` defines it |
| CompositionScreen.ParamsOfRoute | components/Hero.tsx:37-40 | a push of path segments opens the screen with those segments as an array path, and with no id or preview |
| CompositionScreen.NormalizePath | screens/CompositionScreen.tsx:43-47 | an array path as given; a string split on '/' without empty pieces; no path becomes [] |
| CompositionScreen.PathDisplay | screens/CompositionScreen.tsx:66-68 | an array joined with '/'; a non-empty string as is; 'root' for '' or no path |
| CompositionScreen.NotFoundMessage | screens/CompositionScreen.tsx:69 | the not-found error is non-empty and is the path display between the fixed prefix ending in '/' and the fixed suffix |
| CompositionScreen.ThrownMessage | screens/CompositionScreen.tsx:71-74 | an Error's own message, or 'Failed to load composition' for any other thrown value |
| CompositionScreen.Fetched | screens/CompositionScreen.tsx:35-61 | a truthy id means a fetch by id and nothing else, giving the composition the CMS returns for that id, or null; otherwise the first-found lookup of the normalised path; draft state exactly for preview 'true' |
| CompositionScreen.IdTakesPrecedence | screens/CompositionScreen.tsx:35-40 | with the same truthy id and preview flag, the path has no influence on what is fetched |
| CompositionScreen.SelectView | screens/CompositionScreen.tsx:112-142 | spinner iff loading with no composition; otherwise content iff a composition and no truthy error; otherwise the error text or 'Composition not found' |
| CompositionScreen.EmptyErrorKeepsOldContent | screens/CompositionScreen.tsx:71-74 | an Error with an empty message leaves a previously loaded composition on screen |
| CompositionScreen.HeroPushFetchesLinkPath | screens/CompositionScreen.tsx:43-47 | a hero navigation opens the screen on the link path's segments; re-splitting the displayed path or the second slug spelling gives back the same segments |
| CompositionScreen.Screen.constructor | screens/CompositionScreen.tsx:17-22 | a new screen has no composition, is loading, has no error, is in its initial mount, has compared no parameters yet, and shows the spinner |
| CompositionScreen.Screen.BeginLoad | screens/CompositionScreen.tsx:26-31 | a forced load raises `refreshing`, another raises `loading`; the error is cleared and nothing else changes; the first load shows the spinner and a refresh keeps showing content |
| CompositionScreen.Screen.FinishLoad | screens/CompositionScreen.tsx:63-78 | a found composition replaces the old one; not found or thrown sets the error and keeps the old composition; both flags end false |
| CompositionScreen.Screen.Load | screens/CompositionScreen.tsx:24-79 | a load ends with the fetched composition and no error, or with the old composition and the not-found error; both flags false; the screen then shows content or the message |
| CompositionScreen.Screen.OnParamsChanged | screens/CompositionScreen.tsx:82-95 | a load runs only when (path, id) differs from the last recorded pair, which is then recorded; a change of preview alone loads nothing; the previous timer is cleared |
| CompositionScreen.Screen.TimerFired | screens/CompositionScreen.tsx:90-92 | a pending timer ends the initial mount; nothing else changes |
| CompositionScreen.Screen.OnFocus | screens/CompositionScreen.tsx:99-106 | during the initial mount focus does nothing; afterwards it performs a forced load |
| CompositionScreen.Screen.OnRefresh | screens/CompositionScreen.tsx:108-110 | pull-to-refresh performs a forced load |
| Hero.HeroFieldsOf | components/Hero.tsx:21-26 | the four texts default to '' when falsy; link and image are the raw parameter values |
| Hero.HandlePress | components/Hero.tsx:28-43 | no truthy path or a 'url' link means no navigation; any other string path pushes the composition route with its non-empty segments; a non-string path throws; the browser is never opened |
| Hero.ItemsFrom | components/Hero.tsx:48-75 | the drawn elements from a rank on are exactly those whose value is truthy, each once, in rank order |
| Hero.HeroItems | components/Hero.tsx:45-80 | eyebrow, title, description, image and button each appear iff their value is truthy (the image iff `image.url` is), strictly in that order |
| Hero.HeroTextsNonEmpty | components/Hero.tsx:21-24 | every text element drawn carries a truthy value |
| Hero.PushedPathIsNormalised | components/Hero.tsx:36 | the pushed segments contain no empty piece and survive a join and re-split |
| JsString.NonEmptyConcat | components/Hero.tsx:36 | `.filter(Boolean)` keeps the order and repeats of the surviving strings: it distributes over concatenation |
| JsString.SegmentsLeadingSlash | components/Hero.tsx:36 | a leading '/' does not change a path's segments |
| JsString.LeadingSlashSegments | components/Header.tsx:19 | an absolute path '/' + segments joined with '/' splits back into exactly those segments, in order |
| Hero.AbsoluteLinkPushesItsSegments | components/Hero.tsx:35-40 | a non-'url' link whose path is '/a/b/...' pushes the composition route with exactly the segments a, b, ... in order |
| Hero.HeroIgnoresAssetFieldsUrl | components/Hero.tsx:60-66 | an image asset whose url sits only under `fields.url.value` is accepted by `getAssetParameter` but draws no image in the hero |
| Header.HandleNavPress | components/Header.tsx:17-25 | navigation exactly when `link.path` is a truthy string, to the composition route with its non-empty segments; a truthy non-string path throws; the link type is ignored |
| Header.HeaderOf | components/Header.tsx:12-40 | the brand is `brandName` if truthy, else 'Brand', and is always drawn; the nav item appears iff label and link are both truthy |
| Header.HeaderAgreesWithHero | components/Header.tsx:17-25 | header and hero navigate alike for links not of type 'url'; for a 'url' link with a path the hero does nothing while the header acts |
| UniformConfig.Extra | lib/uniformConfig.ts:16-19 | `expoConfig.extra` unless null or undefined, then `manifest.extra` under the same rule, then `{}`; never nullish |
| UniformConfig.GetUniformConfig | lib/uniformConfig.ts:15-37 | key and project id are the first truthy of the extra and the environment values, else ''; the host is the extra value if truthy, else the environment value as it is; the warning is issued iff key or project id is falsy |
| UniformConfig.MissingCredentialsAreEmpty | lib/uniformConfig.ts:21-30 | a falsy key or project id is exactly '', and the warning is issued exactly when one of them is '' |
| AllServices.HandlePress | components/AllServices.tsx:34-51 | 'enroll' and 'tour' open their fixed URLs in the browser and only they do; every other service pushes '/service-detail' with its id and label |
| AllServices.Tiles | components/AllServices.tsx:53-70 | one tile per service, in table order, keyed by the id and pressing through `HandlePress` |
| AllServices.ServicesTable | components/AllServices.tsx:12-29 | sixteen services with the listed ids in this order, each with a non-empty label |
| AllServices.IdListDistinct | components/AllServices.tsx:12-29 | the listed ids are pairwise distinct |
| AllServices.ServiceIdsDistinct | components/AllServices.tsx:12-29 | the services' ids are pairwise distinct |
| AllServices.TileKeysDistinct | components/AllServices.tsx:56 | distinct ids give distinct tile keys |
| AllServices.OnlyFirstTwoOpenBrowser | components/AllServices.tsx:36-50 | in the table, exactly the first two services open the browser; the other fourteen navigate |
| ServiceDetail.DetailLabel | app/service-detail.tsx:8 | the label if non-empty, else the id if non-empty, else 'Service'; never empty |
| ServiceDetail.DetailScreen | app/service-detail.tsx:10-18 | the title and the quoted name in the subtitle are the same label |
| ServiceDetail.PressedServiceShowsItsLabel | app/service-detail.tsx:6-12 | pressing a navigating service opens the detail route titled with that service's label |

## Left out

- Logging: every `console.log`, `console.warn` and `console.error` is dropped. The credentials warning is kept as the `warned` flag of `GetUniformConfig`.
- `getAllCompositions`: a debug helper that logs the list and returns it unchanged.
- `screens/TestScreen.tsx`: a debug button that only logs one fetch.
- Rendering details: styles, colours, sizes and layout are not modelled. The view trees keep only what is drawn, with its props, keys and order.
- The CMS SDK and HTTP: they are the `Cms` parameter. `ApiClientError`, other `Error`s and other thrown values are all `Failure`; the service's `catch` tells them apart only to choose a log message.
- The router, the in-app browser and `Linking`: their calls are returned as `Action` values.
- Async timing:
  - A load is its two halves, `BeginLoad` and `FinishLoad`, run in order. Overlapping loads, React's batching of state updates, the 1000 ms delay and `useFocusEffect` scheduling are not modelled. Timer and focus events are methods called by the environment.
  - The focus effect also re-runs when `loadComposition` changes while the screen is focused. Calling `OnFocus` then is left to the caller.
- `useCallback` identity: `OnParamsChanged` is one run of the effect, whatever caused it. That includes a change of preview alone, which re-creates `loadComposition`.
- `JSON.stringify({ path, compositionId })`: modelled as equality of the `ParamKey` pair. The serialisation is injective on these values.
- Resolver props: the spread of the resolver's `props` over the built props is not modelled, because no registry case supplies props (`ResolveComponent` states `props.None?`).
- The `Hero` default import of `resolver.tsx`: `Hero.tsx` exports a named `Hero`. This is a build concern; 'hero' maps to the hero renderer.
- Header: no registry case maps a type to it. It is modelled on its own, from its props.
- Numbers: they are `real`, so NaN and number-to-text formatting are absent. Only the case where a non-string path throws is modelled (`split` is not a method of a number).
- Strings: plain `seq<char>`, with no Unicode normalisation. The service icons are their code points.
- Slots: a JSON object is an association list of (name, instances) in which the last entry of a name wins, which is what `JSON.parse` produces.
- UniformService.Service.FetchCompositionByRoute: its ghost `queried` output records the slugs asked for; any caching inside the SDK is not modelled.
- CompositionScreen.Screen.Load: it never produces a thrown outcome, because the service methods catch every error. The `catch` branch is modelled by `FinishLoad` with a `Threw` outcome.
- UniformService.RoutesOf: the route list holds `Value`s, because a stored `path` or `slug` need not be a string. The `_id` and `type` fields are computed only for logging and are left out.
