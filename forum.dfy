/**
 * The forum service provider: the forum middleware pipe, the forum route
 * collection with its `/` route, and the asset-flushing listeners.
 */
module Forum {
  import opened Wrappers
  import opened Pipeline
  import opened Routes
  import opened Events

  const IndexController: string := "Flarum\\Forum\\Controller\\IndexController"

  /**
   * The pipe the `flarum.forum.middleware` singleton returns: its own eight
   * stages, then whatever the ConfigureMiddleware listeners piped.
   */
  function ConfiguredStages(app: AppStatus, contributed: seq<Stage>): seq<Stage>
  {
    [ HandleErrors(ShowErrorDetails(app)),
      ParseJsonBody,
      CollectGarbage,
      StartSession,
      RememberFromCookie,
      AuthenticateWithSession,
      SetLocale,
      ShareErrorsFromSession
    ] + contributed
  }

  /** The resolved pipe: the `afterResolving` hook has appended the dispatcher. */
  function Middleware(app: AppStatus, contributed: seq<Stage>): (stages: seq<Stage>)
    ensures |stages| == 9 + |contributed|
    ensures stages[0] == HandleErrors(!app.isUpToDate || app.inDebugMode)
    ensures stages[|stages| - 1] == DispatchRoute(ForumRoutes)
    ensures stages[8..|stages| - 1] == contributed
  {
    ConfiguredStages(app, contributed) + [DispatchRoute(ForumRoutes)]
  }

  /** The forum's own stages, in order, come before anything a listener adds. */
  lemma CoreStagesInOrder(app: AppStatus, contributed: seq<Stage>)
    ensures Middleware(app, contributed)[..8] == [
      HandleErrors(ShowErrorDetails(app)), ParseJsonBody, CollectGarbage, StartSession,
      RememberFromCookie, AuthenticateWithSession, SetLocale, ShareErrorsFromSession]
  {
  }

  /** Whatever the listeners pipe, every dispatch runs behind the error handler. */
  lemma DispatchBehindErrorHandler(app: AppStatus, contributed: seq<Stage>)
    ensures GuardedDispatch(Middleware(app, contributed), HandleErrors(ShowErrorDetails(app)))
  {
    var stages := Middleware(app, contributed);
    forall i | 0 <= i < |stages| && stages[i].DispatchRoute?
      ensures exists j :: 0 <= j < i && stages[j] == HandleErrors(ShowErrorDetails(app))
    {
      assert stages[0] == HandleErrors(ShowErrorDetails(app));
    }
  }

  /** The `flarum.forum.middleware` singleton. */
  method MakeMiddleware(app: AppStatus, contributed: seq<Stage>) returns (pipe: MiddlewarePipe)
    ensures fresh(pipe)
    ensures pipe.stages == ConfiguredStages(app, contributed)
  {
    pipe := new MiddlewarePipe();
    var debugMode := !app.isUpToDate || app.inDebugMode;
    pipe.Pipe(HandleErrors(debugMode));
    pipe.Pipe(ParseJsonBody);
    pipe.Pipe(CollectGarbage);
    pipe.Pipe(StartSession);
    pipe.Pipe(RememberFromCookie);
    pipe.Pipe(AuthenticateWithSession);
    pipe.Pipe(SetLocale);
    pipe.Pipe(ShareErrorsFromSession);
    ConfigureMiddleware(pipe, contributed);
  }

  /** The `afterResolving` hook: the route dispatcher goes last. */
  method AfterResolving(pipe: MiddlewarePipe)
    modifies pipe
    ensures pipe.stages == old(pipe.stages) + [DispatchRoute(ForumRoutes)]
  {
    pipe.Pipe(DispatchRoute(ForumRoutes));
  }

  /** Resolving `flarum.forum.middleware` from the container. */
  method ResolveMiddleware(app: AppStatus, contributed: seq<Stage>) returns (pipe: MiddlewarePipe)
    ensures fresh(pipe)
    ensures pipe.stages == Middleware(app, contributed)
  {
    pipe := MakeMiddleware(app, contributed);
    AfterResolving(pipe);
  }

  /** `$url->addCollection('forum', ...)`, without a prefix. */
  method ExtendUrlGenerator(url: UrlGenerator)
    modifies url
    ensures url.collections == old(url.collections)["forum" := (ForumRoutes, None)]
  {
    url.AddCollection("forum", ForumRoutes, None);
  }

  /** The key `isset(...['GET'][$defaultRoute])` looks up: PHP reads a null key as "". */
  function DefaultRouteKey(defaultRoute: Option<string>): (key: string)
    ensures defaultRoute.None? ==> key == ""
    ensures defaultRoute.Some? ==> key == defaultRoute.value
  {
    match defaultRoute
    case Some(path) => path
    case None => ""
  }

  /**
   * The handler for `/`: the one registered for the static GET path the
   * `default_route` setting names, or else the IndexController.
   */
  function DefaultHandler(routes: seq<Route>, defaultRoute: Option<string>): (h: Handler)
    ensures StaticGetHandler(routes, DefaultRouteKey(defaultRoute)).Some? ==>
      h == StaticGetHandler(routes, DefaultRouteKey(defaultRoute)).value
    ensures h != ToController(IndexController) ==>
      exists i :: 0 <= i < |routes| && IsStaticGet(routes[i], DefaultRouteKey(defaultRoute)) && routes[i].handler == h
    ensures (forall i :: 0 <= i < |routes| ==> !IsStaticGet(routes[i], DefaultRouteKey(defaultRoute))) ==>
      h == ToController(IndexController)
  {
    match StaticGetHandler(routes, DefaultRouteKey(defaultRoute))
    case Some(h) => h
    case None => ToController(IndexController)
  }

  /**
   * `populateRoutes`: the routes file and the ConfigureForumRoutes listeners
   * add their routes first; only then is `/` added, named `default`.
   */
  method PopulateRoutes(routes: RouteCollection, routeFile: seq<Route>, listenerRoutes: seq<Route>,
                        defaultRoute: Option<string>)
    modifies routes
    ensures routes.routes == old(routes.routes) + routeFile + listenerRoutes +
      [Route(GET, "/", "default", DefaultHandler(old(routes.routes) + routeFile + listenerRoutes, defaultRoute))]
  {
    routes.Register(routeFile);
    routes.Register(listenerRoutes);

    var toDefaultController: Handler;
    match routes.StaticGet(DefaultRouteKey(defaultRoute)) {
      case Some(h) =>
        toDefaultController := h;
      case None =>
        toDefaultController := ToController(IndexController);
    }

    routes.Get("/", "default", toDefaultController);
  }

  /** After population, `/` dispatches to the default handler. */
  lemma RootServesDefault(before: seq<Route>, routeFile: seq<Route>, listenerRoutes: seq<Route>,
                          defaultRoute: Option<string>)
    ensures var populated := before + routeFile + listenerRoutes;
      StaticGetHandler(populated + [Route(GET, "/", "default", DefaultHandler(populated, defaultRoute))], "/")
      == Some(DefaultHandler(populated, defaultRoute))
  {
    var populated := before + routeFile + listenerRoutes;
    StaticGetLatestWins(populated, "/", "default", DefaultHandler(populated, defaultRoute));
  }

  /** `flushWebAppAssetsWhenThemeChanged`. */
  method FlushWebAppAssetsWhenThemeChanged(events: Dispatcher)
    modifies events
    ensures events.listeners == old(events.listeners) + [(SavedClass, FlushCssWhenThemeChanged)]
  {
    events.Listen(SavedClass, FlushCssWhenThemeChanged);
  }

  /** `flushWebAppAssetsWhenExtensionsChanged`. */
  method FlushWebAppAssetsWhenExtensionsChanged(events: Dispatcher)
    modifies events
    ensures events.listeners == old(events.listeners) +
      [(EnabledClass, FlushWebAppAssets), (DisabledClass, FlushWebAppAssets)]
  {
    events.Listen(EnabledClass, FlushWebAppAssets);
    events.Listen(DisabledClass, FlushWebAppAssets);
  }

  /**
   * `boot`: populate the routes, then register the asset listeners. After
   * it, every event causes what the earlier listeners do followed by the
   * asset reaction.
   */
  method Boot(routes: RouteCollection, events: Dispatcher, routeFile: seq<Route>,
              listenerRoutes: seq<Route>, defaultRoute: Option<string>)
    modifies routes, events
    ensures routes.routes == old(routes.routes) + routeFile + listenerRoutes +
      [Route(GET, "/", "default", DefaultHandler(old(routes.routes) + routeFile + listenerRoutes, defaultRoute))]
    ensures events.listeners == old(events.listeners) + AssetListeners
    ensures forall e :: events.Fire(e) == old(events.Fire(e)) + AssetReaction(e)
  {
    PopulateRoutes(routes, routeFile, listenerRoutes, defaultRoute);
    FlushWebAppAssetsWhenThemeChanged(events);
    FlushWebAppAssetsWhenExtensionsChanged(events);
    assert events.listeners == old(events.listeners) + AssetListeners;
    forall e ensures events.Fire(e) == old(events.Fire(e)) + AssetReaction(e) {
      AssetListenersReact(old(events.listeners), e);
    }
  }
}
