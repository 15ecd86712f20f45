/**
 * Middleware pipelines: ordered sequences of request-processing stages, grown
 * one `pipe()` call at a time (Zend Stratigility's MiddlewarePipe).
 */
module Pipeline {

  /** The three HTTP surfaces mounted by the installed application. */
  datatype Surface = ApiSurface | AdminSurface | ForumSurface

  /** Route collections a DispatchRoute stage can dispatch into. */
  datatype RouteTable = ForumRoutes | AdminRoutes | UpdateRoutes

  /** What `isUpToDate()` and `inDebugMode()` report about the application. */
  datatype AppStatus = AppStatus(isUpToDate: bool, inDebugMode: bool)

  /**
   * One middleware in a pipe. The names are the middleware classes the
   * service providers resolve; `Path` mounts a surface's sub-pipeline under
   * a URL prefix; `RespondWith` is a closure that answers every request with
   * a fixed page and status; `ExtensionStage` is a stage an extension adds
   * from a ConfigureMiddleware listener.
   */
  datatype Stage =
    | HandleErrors(debug: bool)
    | ParseJsonBody
    | CollectGarbage
    | StartSession
    | RememberFromCookie
    | AuthenticateWithSession
    | SetLocale
    | ShareErrorsFromSession
    | RequireAdministrateAbility
    | DispatchRoute(routes: RouteTable)
    | Path(prefix: string, surface: Surface)
    | RespondWith(status: int, page: string)
    | ExtensionStage(name: string)

  /** Whether the error handler shows error details: not up to date, or in debug mode. */
  function ShowErrorDetails(app: AppStatus): (r: bool)
    ensures !app.isUpToDate ==> r
    ensures app.inDebugMode ==> r
    ensures app.isUpToDate && !app.inDebugMode ==> !r
  {
    !app.isUpToDate || app.inDebugMode
  }

  /** Every DispatchRoute stage has a `guard` stage somewhere before it. */
  predicate GuardedDispatch(stages: seq<Stage>, guard: Stage)
  {
    forall i :: 0 <= i < |stages| && stages[i].DispatchRoute? ==>
      exists j :: 0 <= j < i && stages[j] == guard
  }

  /** A pipe is append-only: the only way to change it is `Pipe`. */
  class MiddlewarePipe {
    var stages: seq<Stage>

    constructor ()
      ensures stages == []
    {
      stages := [];
    }

    method Pipe(stage: Stage)
      modifies this
      ensures stages == old(stages) + [stage]
    {
      stages := stages + [stage];
    }
  }

  /**
   * Fires the ConfigureMiddleware event: each listener receives the pipe and
   * may pipe further stages into it; `contributed` lists them in the order
   * the listeners pipe them.
   */
  method ConfigureMiddleware(pipe: MiddlewarePipe, contributed: seq<Stage>)
    modifies pipe
    ensures pipe.stages == old(pipe.stages) + contributed
  {
    for i := 0 to |contributed|
      invariant pipe.stages == old(pipe.stages) + contributed[..i]
    {
      pipe.Pipe(contributed[i]);
      assert contributed[..i + 1] == contributed[..i] + [contributed[i]];
    }
    assert contributed[..|contributed|] == contributed;
  }
}
