/**
 * The effects a press handler can have, as values: a router push, opening the
 * in-app browser, doing nothing, or throwing (a handler that calls `split` on a
 * value that is not a string).
 */
module Navigation {

  /** The route of the composition screen. */
  const COMPOSITION_ROUTE := "/composition/[...path]"

  /** The route of the service detail screen. */
  const SERVICE_DETAIL_ROUTE := "/service-detail"

  /** The `params` object of a router push. */
  datatype RouteParams =
    | PathParams(path: seq<string>)
    | ServiceParams(id: string, labelText: string)

  datatype Action =
    | NoOp
    | Push(pathname: string, params: RouteParams)
    | OpenBrowser(url: string)
    | Throws
}
