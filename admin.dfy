/**
 * The admin service provider: the admin middleware pipe, which demands the
 * administrate ability before any route is dispatched, the admin route
 * collection, and the asset-flushing listeners.
 */
module Admin {
  import opened Wrappers
  import opened Pipeline
  import opened Routes
  import opened Events

  /**
   * The pipe the `flarum.admin.middleware` singleton returns: its own seven
   * stages, then whatever the ConfigureMiddleware listeners piped.
   */
  function ConfiguredStages(app: AppStatus, contributed: seq<Stage>): seq<Stage>
  {
    [ HandleErrors(ShowErrorDetails(app)),
      ParseJsonBody,
      StartSession,
      RememberFromCookie,
      AuthenticateWithSession,
      SetLocale,
      RequireAdministrateAbility
    ] + contributed
  }

  /** The resolved pipe: the `afterResolving` hook has appended the dispatcher. */
  function Middleware(app: AppStatus, contributed: seq<Stage>): (stages: seq<Stage>)
    ensures |stages| == 8 + |contributed|
    ensures stages[0] == HandleErrors(!app.isUpToDate || app.inDebugMode)
    ensures stages[6] == RequireAdministrateAbility
    ensures stages[|stages| - 1] == DispatchRoute(AdminRoutes)
    ensures stages[7..|stages| - 1] == contributed
  {
    ConfiguredStages(app, contributed) + [DispatchRoute(AdminRoutes)]
  }

  /** The admin's own stages, in order, come before anything a listener adds. */
  lemma CoreStagesInOrder(app: AppStatus, contributed: seq<Stage>)
    ensures Middleware(app, contributed)[..7] == [
      HandleErrors(ShowErrorDetails(app)), ParseJsonBody, StartSession, RememberFromCookie,
      AuthenticateWithSession, SetLocale, RequireAdministrateAbility]
  {
  }

  /**
   * Whatever the listeners pipe (even a dispatcher of their own), every
   * dispatch runs behind the administrate-ability check.
   */
  lemma DispatchRequiresAdministrateAbility(app: AppStatus, contributed: seq<Stage>)
    ensures GuardedDispatch(Middleware(app, contributed), RequireAdministrateAbility)
  {
    var stages := Middleware(app, contributed);
    forall i | 0 <= i < |stages| && stages[i].DispatchRoute?
      ensures exists j :: 0 <= j < i && stages[j] == RequireAdministrateAbility
    {
      assert stages[6] == RequireAdministrateAbility;
    }
  }

  /** The `flarum.admin.middleware` singleton. */
  method MakeMiddleware(app: AppStatus, contributed: seq<Stage>) returns (pipe: MiddlewarePipe)
    ensures fresh(pipe)
    ensures pipe.stages == ConfiguredStages(app, contributed)
  {
    pipe := new MiddlewarePipe();
    var debugMode := !app.isUpToDate || app.inDebugMode;
    pipe.Pipe(HandleErrors(debugMode));
    pipe.Pipe(ParseJsonBody);
    pipe.Pipe(StartSession);
    pipe.Pipe(RememberFromCookie);
    pipe.Pipe(AuthenticateWithSession);
    pipe.Pipe(SetLocale);
    pipe.Pipe(RequireAdministrateAbility);
    ConfigureMiddleware(pipe, contributed);
  }

  /** The `afterResolving` hook: the route dispatcher goes last. */
  method AfterResolving(pipe: MiddlewarePipe)
    modifies pipe
    ensures pipe.stages == old(pipe.stages) + [DispatchRoute(AdminRoutes)]
  {
    pipe.Pipe(DispatchRoute(AdminRoutes));
  }

  /** Resolving `flarum.admin.middleware` from the container. */
  method ResolveMiddleware(app: AppStatus, contributed: seq<Stage>) returns (pipe: MiddlewarePipe)
    ensures fresh(pipe)
    ensures pipe.stages == Middleware(app, contributed)
  {
    pipe := MakeMiddleware(app, contributed);
    AfterResolving(pipe);
  }

  /** `$url->addCollection('admin', ..., 'admin')`. */
  method ExtendUrlGenerator(url: UrlGenerator)
    modifies url
    ensures url.collections == old(url.collections)["admin" := (AdminRoutes, Some("admin"))]
  {
    url.AddCollection("admin", AdminRoutes, Some("admin"));
  }

  /** `populateRoutes`: only the routes file adds routes. */
  method PopulateRoutes(routes: RouteCollection, routeFile: seq<Route>)
    modifies routes
    ensures routes.routes == old(routes.routes) + routeFile
  {
    routes.Register(routeFile);
  }

  /** `registerListeners`: the asset listeners for Saved, Enabled and Disabled. */
  method RegisterListeners(events: Dispatcher)
    modifies events
    ensures events.listeners == old(events.listeners) + AssetListeners
    ensures forall e :: events.Fire(e) == old(events.Fire(e)) + AssetReaction(e)
  {
    events.Listen(SavedClass, FlushCssWhenThemeChanged);
    events.Listen(EnabledClass, FlushWebAppAssets);
    events.Listen(DisabledClass, FlushWebAppAssets);
    assert events.listeners == old(events.listeners) + AssetListeners;
    forall e ensures events.Fire(e) == old(events.Fire(e)) + AssetReaction(e) {
      AssetListenersReact(old(events.listeners), e);
    }
  }

  /** `boot`: populate the routes, then register the listeners. */
  method Boot(routes: RouteCollection, events: Dispatcher, routeFile: seq<Route>)
    modifies routes, events
    ensures routes.routes == old(routes.routes) + routeFile
    ensures events.listeners == old(events.listeners) + AssetListeners
  {
    PopulateRoutes(routes, routeFile);
    RegisterListeners(events);
  }
}
