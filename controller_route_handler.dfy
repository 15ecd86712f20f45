/**
 * The route handler that resolves a controller from the container and lets
 * it handle the request, with the route parameters merged into the query.
 */
module ControllerRouteHandler {
  import opened Wrappers

  type Params = map<string, string>

  /** The parts of a server request the handler reads or replaces. */
  datatype Request = Request(httpMethod: string, uri: string, queryParams: Params)

  datatype Response = Response(status: int, body: string)

  /** What the container hands back: a RequestHandlerInterface, or some other object. */
  datatype Resolved = RequestHandler(handlerId: string) | NotARequestHandler(className: string)

  /**
   * The controller given to the handler: a value PHP's `is_callable`
   * accepts, or a class name to build.
   */
  datatype ControllerSpec = CallableSpec(callable: string) | ClassSpec(className: string)

  /** The container's `call` and `make`. */
  datatype Container = Container(call: string -> Resolved, make: string -> Resolved)

  /** InvalidArgumentException, with its message. */
  datatype InvalidArgument = InvalidArgument(message: string)

  const NotAHandlerMessage: string :=
    "Controller must be an instance of Psr\\Http\\Server\\RequestHandlerInterface"

  /** `array_merge($queryParams, $routeParams)` on string keys: route values win. */
  function MergeParams(query: Params, route: Params): (merged: Params)
    ensures merged.Keys == query.Keys + route.Keys
    ensures forall k :: k in route ==> merged[k] == route[k]
    ensures forall k :: k in query && k !in route ==> merged[k] == query[k]
  {
    query + route
  }

  /** What the container returns for the controller spec. */
  function Lookup(container: Container, spec: ControllerSpec): (r: Resolved)
    ensures spec.CallableSpec? ==> r == container.call(spec.callable)
    ensures spec.ClassSpec? ==> r == container.make(spec.className)
  {
    match spec
    case CallableSpec(f) => container.call(f)
    case ClassSpec(c) => container.make(c)
  }

  /**
   * `resolveController`: a callable is resolved with `call`, anything else
   * with `make`; the result must be a request handler.
   */
  function ResolveController(container: Container, spec: ControllerSpec): (r: Result<string, InvalidArgument>)
    ensures spec.CallableSpec? && container.call(spec.callable).RequestHandler? ==>
      r == Success(container.call(spec.callable).handlerId)
    ensures spec.ClassSpec? && container.make(spec.className).RequestHandler? ==>
      r == Success(container.make(spec.className).handlerId)
    ensures r.Failure? <==> Lookup(container, spec).NotARequestHandler?
    ensures r.Failure? ==> r.error.message == NotAHandlerMessage
  {
    match Lookup(container, spec)
    case RequestHandler(h) => Success(h)
    case NotARequestHandler(_) => Failure(InvalidArgument(NotAHandlerMessage))
  }

  /** A handler bound to its container and controller. */
  datatype Handler = Handler(container: Container, controller: ControllerSpec)

  /**
   * `__invoke`: resolve the controller, then pass it the request whose query
   * parameters are the merged ones. `handle` is the controller's `handle`.
   */
  function Invoke(h: Handler, handle: (string, Request) -> Response, request: Request, routeParams: Params)
    : (r: Result<Response, InvalidArgument>)
    ensures r.Failure? <==> ResolveController(h.container, h.controller).Failure?
    ensures r.Failure? ==> r == Failure(ResolveController(h.container, h.controller).error)
    ensures r.Success? ==> r.value == handle(
      ResolveController(h.container, h.controller).value,
      request.(queryParams := MergeParams(request.queryParams, routeParams)))
  {
    match ResolveController(h.container, h.controller)
    case Failure(e) => Failure(e)
    case Success(controller) =>
      var merged := request.(queryParams := MergeParams(request.queryParams, routeParams));
      Success(handle(controller, merged))
  }

  /**
   * The request the controller sees differs from the incoming one only in
   * its query parameters, and every route parameter is there with its value.
   */
  lemma HandledRequestCarriesRouteParams(request: Request, routeParams: Params)
    ensures var seen := request.(queryParams := MergeParams(request.queryParams, routeParams));
      && seen.httpMethod == request.httpMethod
      && seen.uri == request.uri
      && routeParams.Keys <= seen.queryParams.Keys
      && forall k :: k in routeParams ==> seen.queryParams[k] == routeParams[k]
  {
  }

  /** When the controller is not a request handler, `handle` is never reached. */
  lemma NotAHandlerNeverHandles(h: Handler, handle1: (string, Request) -> Response,
                                handle2: (string, Request) -> Response, request: Request, routeParams: Params)
    requires Lookup(h.container, h.controller).NotARequestHandler?
    ensures Invoke(h, handle1, request, routeParams) == Invoke(h, handle2, request, routeParams)
    ensures Invoke(h, handle1, request, routeParams) == Failure(InvalidArgument(NotAHandlerMessage))
  {
  }
}
