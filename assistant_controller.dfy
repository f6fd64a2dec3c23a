/**
 * The HTTP boundary: `POST api/query` and `GET api/context`. Each rejects an
 * empty input before doing anything else, and otherwise passes its input on
 * unchanged and returns what it gets back.
 */
module AssistantController {
  import opened Wrappers
  import opened Models
  import opened RouteContexts
  import opened OpenAIService

  const EmptyQueryError := "Query cannot be empty"
  const EmptyRouteError := "Route cannot be empty"

  /**
   * An empty query is rejected with no remote call; any other query is answered
   * by the driver, given the request's query and thread id unchanged and the
   * context of the request's route.
   */
  method Query(routeContextService: RouteContextService, assistantId: string, backend: Backend, request: QueryRequest)
    returns (result: ActionResult<QueryResponse>, calls: seq<RemoteCall>)
    ensures request.query == "" ==> result == BadRequest(EmptyQueryError) && calls == []
    ensures request.query != "" ==>
              result == Ok(QueryOutcome(request.query, request.threadId, assistantId, backend).0) &&
              calls == QueryOutcome(request.query, request.threadId, assistantId, backend).1
  {
    if request.query == "" {
      return BadRequest(EmptyQueryError), [];
    }
    var context := routeContextService.GetContextForRoute(request.route);
    var response;
    response, calls := ProcessQuery(request.query, context, request.threadId, assistantId, backend);
    return Ok(response), calls;
  }

  /** An empty route is rejected; any other is answered by the route-context lookup. */
  function GetContext(routeContextService: RouteContextService, route: string): (result: ActionResult<RouteContext>)
    reads routeContextService
    ensures route == "" ==> result == BadRequest(EmptyRouteError)
    ensures route != "" ==> result == Ok(routeContextService.GetContextForRoute(route))
  {
    if route == "" then BadRequest(EmptyRouteError)
    else Ok(routeContextService.GetContextForRoute(route))
  }

  /** `GET api/context` answers `r` and `r + "/"` alike. */
  lemma GetContextIgnoresTrailingSlash(routeContextService: RouteContextService, route: string)
    requires route != ""
    ensures GetContext(routeContextService, route + "/") == GetContext(routeContextService, route)
  {
    LookupIgnoresTrailingSlashes(routeContextService, route);
  }

  /**
   * A non-empty route made only of slashes passes the guard but normalises to
   * "", which no loaded record is stored under: the answer is the minimal
   * context for "".
   */
  lemma SlashOnlyRouteGetsMinimalContext(routeContextService: RouteContextService, route: string)
    requires routeContextService.Valid()
    requires route != "" && forall i :: 0 <= i < |route| ==> route[i] == '/'
    ensures GetContext(routeContextService, route) == Ok(MinimalContext(""))
  {
    NormalizeRouteUnique(route, "");
  }
}
