/**
 * The records exchanged by the backend: the route context snippet, the
 * query request and the query response with its (always empty) actions.
 */
module Models {
  import opened Wrappers

  /** One UI element described by a route context. */
  datatype UiElement = UiElement(id: string, description: string)

  /** The grounding snippet for one route; `dependencies` is nullable. */
  datatype RouteContext = RouteContext(
    route: string,
    description: string,
    elements: seq<UiElement>,
    apiCalls: seq<string>,
    dependencies: Option<seq<string>>,
    userActions: seq<string>)

  /** Body of `POST api/query`; only `threadId` is nullable. */
  datatype QueryRequest = QueryRequest(query: string, route: string, threadId: Option<string>)

  /** A structured directive for the widget; every field but its type is nullable. */
  datatype AssistantAction = AssistantAction(
    actionType: string,
    elementId: Option<string>,
    description: Option<string>,
    route: Option<string>)

  /** Reply of `POST api/query`; `actions` is nullable. */
  datatype QueryResponse = QueryResponse(
    message: string,
    actions: Option<seq<AssistantAction>>,
    threadId: string)

  /** The two outcomes of the controller's actions that the model distinguishes. */
  datatype ActionResult<T> = Ok(value: T) | BadRequest(error: string)
}
