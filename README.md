# Flarum request-mode selection, surface pipelines and registration tokens in Dafny

This project models the decision rules inside Flarum's HTTP bootstrapping:

- **Mode selection** (`Foundation`). The installed application builds one of three top-level
  middleware pipes. If the `offline` flag is set, it builds a single stage that answers 503 with
  the maintenance page. The updater pipe is selected only when an update is pending, and the
  update check is hard-wired to "no". Otherwise the API, admin and forum surfaces are mounted
  under their URL path prefixes, in that order.
- **Surface pipelines** (`Forum`, `Admin`, `Pipeline`). Each surface pipe is grown by
  append-only `pipe()` calls: the error handler (with its debug flag), the provider's own
  stages, then whatever ConfigureMiddleware listeners add. The `afterResolving` hook then appends
  the route dispatcher.
- **Routes** (`Forum`, `Admin`, `Routes`). The forum's `/` route is added after the routes file
  and the ConfigureForumRoutes listeners have run. It uses the handler of the static GET route
  that the `default_route` setting names, and otherwise the IndexController. The admin route
  collection is registered with the URL generator under the prefix `admin`.
- **Asset flushing** (`Events`, `Text`). Saving a setting flushes the CSS when its key matches
  `/^theme_|^custom_less$/i`. Enabling or disabling an extension flushes all assets.
- **Registration tokens** (`User`). `generate` copies its inputs and stamps the creation time.
  `validOrFail` rejects a missing token and a token created strictly more than one day (86400 s)
  before now.
- **Controller route handler** (`ControllerRouteHandler`). The route parameters are merged over
  the query parameters, with route values winning. A callable controller is resolved with the
  container's `call`, anything else with `make`. A result that is not a request handler raises
  InvalidArgumentException before `handle` is reached.

The pipes, route collections, URL generator, event dispatcher and token model are classes whose
methods append to or assign their fields, as the PHP objects do. Each is specified by a function
of the inputs (`Forum.Middleware`, `SelectMode`/`ModeStages`, `DefaultHandler`,
`AssetReaction`), and the properties are proved about those functions.

`User.validOrFail` rejects a token when `created_at < now - 1 day`. The comparison is strict, so
a token exactly one day old is still accepted (`User.ExpiryBoundary`).

## Model

| member | source | states |
|---|---|---|
| Foundation.SelectMode | src/Foundation/InstalledApp.php:46-66 | maintenance mode holds iff the maintenance pipe is chosen, whatever else holds; the updater is never chosen; otherwise exactly three mounts: API at its path, admin at its path, forum at the defaulted forum prefix |
| Foundation.InMaintenanceMode | src/Foundation/InstalledApp.php:68-71 | a missing or null `offline` entry means online; a boolean entry is taken as is; the string `"0"` means online |
| Foundation.NeedsUpdate | src/Foundation/InstalledApp.php:91-94 | an update is never needed |
| Foundation.ForumPrefix | src/Foundation/InstalledApp.php:62 | the forum prefix is never empty; a falsy path ("" or "0") becomes `/`, any other path is kept |
| Foundation.ModeStages | src/Foundation/InstalledApp.php:76-110 | the maintenance pipe is one 503 stage with the maintenance page, the updater pipe is one DispatchRoute over the update routes, the normal pipe has one Path stage per mount in mount order |
| Foundation.OfflineAlwaysAnswers503 | src/Foundation/InstalledApp.php:48-49 | with the offline flag set, for any URLs, the top-level pipe has exactly one stage and it responds with status 503 |
| Foundation.OnlineMountsThreeSurfaces | src/Foundation/InstalledApp.php:54-65 | without the offline flag the pipe is exactly Path(api), Path(admin), Path(forum prefix), in that order |
| Foundation.MissingOfflineIsOnline | src/Foundation/InstalledApp.php:68-71 | a configuration without an `offline` key selects normal operation |
| Foundation.InstalledApp.constructor | src/Foundation/InstalledApp.php:37-41 | the app keeps the configuration it is given |
| Foundation.InstalledApp.GetMiddleware | src/Foundation/InstalledApp.php:46-66 | returns a new pipe whose stages are those of the selected mode |
| Foundation.InstalledApp.GetMaintenanceMiddleware | src/Foundation/InstalledApp.php:76-89 | a new pipe with the single stage answering 503 with the maintenance page |
| Foundation.InstalledApp.GetUpdaterMiddleware | src/Foundation/InstalledApp.php:99-110 | a new pipe with the single DispatchRoute over the update routes |
| Foundation.InstalledApp.ConsoleCommands | src/Foundation/InstalledApp.php:115-124 | exactly five commands, in order: generate-migration, info (carrying the app's configuration), migrate, reset, cache-clear |
| User.RegistrationToken.constructor | src/User/RegistrationToken.php:53 | a new, empty token model |
| User.RegistrationToken.Generate | src/User/RegistrationToken.php:51-63 | a fresh token whose provider, identifier, attributes and payload are the inputs unchanged, whose id is a 40-character random string and whose creation time is `now` |
| User.ValidOrFail | src/User/RegistrationToken.php:75-84 | succeeds iff a token is stored under the id and is at most one day old at `now`; on success it returns the stored token unchanged; a missing id always fails |
| User.Expired | src/User/RegistrationToken.php:79 | a token has expired iff more than one day has passed since it was created; one exactly a day old has not |
| User.ExpiryBoundary | src/User/RegistrationToken.php:79 | a token exactly 86400 s old is accepted, one second older is rejected |
| User.ExpiryIsPermanent | src/User/RegistrationToken.php:77-80 | a rejection at some time persists at every later time |
| User.GeneratedTokenLifetime | src/User/RegistrationToken.php:51-84 | a stored token is returned exactly while now <= created + 86400, and rejected after |
| ControllerRouteHandler.MergeParams | src/Http/ControllerRouteHandler.php:51 | the keys are those of query and route params; every route param keeps its route value; query params not overridden keep theirs |
| ControllerRouteHandler.ResolveController | src/Http/ControllerRouteHandler.php:60-75 | a callable spec is resolved by `call`, a class spec by `make`; fails with the InvalidArgumentException message iff the resolved object is not a request handler |
| ControllerRouteHandler.Lookup | src/Http/ControllerRouteHandler.php:62-66 | a callable spec is passed to the container's `call`, a class name to its `make` |
| ControllerRouteHandler.Invoke | src/Http/ControllerRouteHandler.php:47-54 | fails exactly when resolution fails; otherwise the response is the controller's `handle` on the request with the merged query params |
| ControllerRouteHandler.HandledRequestCarriesRouteParams | src/Http/ControllerRouteHandler.php:51 | the request handed on differs only in its query params, which contain every route param with its route value |
| ControllerRouteHandler.NotAHandlerNeverHandles | src/Http/ControllerRouteHandler.php:68-72 | for a non-handler the outcome is the exception, whatever `handle` would do |
| Pipeline.MiddlewarePipe.Pipe | src/Forum/ForumServiceProvider.php:49 | `pipe()` appends one stage and changes nothing else |
| Pipeline.ConfigureMiddleware | src/Forum/ForumServiceProvider.php:59 | the listeners can only append stages, after the existing ones and in order |
| Pipeline.ShowErrorDetails | src/Forum/ForumServiceProvider.php:48 | error details are shown when the app is not up to date or is in debug mode, and hidden otherwise |
| Forum.Middleware | src/Forum/ForumServiceProvider.php:44-66 | nine stages plus the listeners' stages; the first is HandleErrors with debug = not up to date or debug mode; the listeners' stages sit between the forum's own and the last stage, which is DispatchRoute over the forum routes |
| Forum.CoreStagesInOrder | src/Forum/ForumServiceProvider.php:47-57 | the first eight stages are exactly HandleErrors, ParseJsonBody, CollectGarbage, StartSession, RememberFromCookie, AuthenticateWithSession, SetLocale, ShareErrorsFromSession |
| Forum.DispatchBehindErrorHandler | src/Forum/ForumServiceProvider.php:47-66 | whatever the listeners add, every DispatchRoute stage comes after the error handler |
| Forum.MakeMiddleware | src/Forum/ForumServiceProvider.php:44-62 | the singleton's pipe: the eight stages, then the listeners' stages |
| Forum.AfterResolving | src/Forum/ForumServiceProvider.php:64-66 | appends DispatchRoute over the forum routes |
| Forum.ResolveMiddleware | src/Forum/ForumServiceProvider.php:44-66 | the resolved pipe equals `Forum.Middleware` |
| Forum.ExtendUrlGenerator | src/Forum/ForumServiceProvider.php:36-38 | the forum routes are registered under `forum`, without a prefix |
| Forum.DefaultHandler | src/Forum/ForumServiceProvider.php:104-110 | the handler of the static GET route named by `default_route` when one exists; otherwise the IndexController, and only a registered handler otherwise |
| Forum.DefaultRouteKey | src/Forum/ForumServiceProvider.php:106 | a missing `default_route` setting is looked up as the empty key; a set one is used as is |
| Forum.PopulateRoutes | src/Forum/ForumServiceProvider.php:93-117 | the routes file's and the listeners' routes are added first, then `/` named `default` with the default handler computed over them |
| Forum.RootServesDefault | src/Forum/ForumServiceProvider.php:112-116 | after population the static GET entry for `/` is the default handler |
| Forum.FlushWebAppAssetsWhenThemeChanged | src/Forum/ForumServiceProvider.php:119-126 | registers the theme listener for Saved |
| Forum.FlushWebAppAssetsWhenExtensionsChanged | src/Forum/ForumServiceProvider.php:128-134 | registers `flushWebAppAssets` for Enabled, then Disabled |
| Forum.Boot | src/Forum/ForumServiceProvider.php:72-86 | populates the routes, then registers the asset listeners, after which every event also causes its asset reaction |
| Admin.Middleware | src/Admin/AdminServiceProvider.php:42-63 | eight stages plus the listeners' stages; HandleErrors first with the debug rule; RequireAdministrateAbility seventh; listeners' stages next; DispatchRoute over the admin routes last |
| Admin.CoreStagesInOrder | src/Admin/AdminServiceProvider.php:47-54 | the first seven stages are exactly HandleErrors, ParseJsonBody, StartSession, RememberFromCookie, AuthenticateWithSession, SetLocale, RequireAdministrateAbility |
| Admin.DispatchRequiresAdministrateAbility | src/Admin/AdminServiceProvider.php:54-63 | whatever the listeners add, every DispatchRoute stage comes after RequireAdministrateAbility |
| Admin.MakeMiddleware | src/Admin/AdminServiceProvider.php:42-59 | the singleton's pipe: the seven stages, then the listeners' stages |
| Admin.AfterResolving | src/Admin/AdminServiceProvider.php:61-63 | appends DispatchRoute over the admin routes |
| Admin.ResolveMiddleware | src/Admin/AdminServiceProvider.php:42-63 | the resolved pipe equals `Admin.Middleware` |
| Admin.ExtendUrlGenerator | src/Admin/AdminServiceProvider.php:34-36 | the admin routes are registered under `admin` with prefix `admin` |
| Admin.PopulateRoutes | src/Admin/AdminServiceProvider.php:83-89 | the routes file's routes are added, nothing else |
| Admin.RegisterListeners | src/Admin/AdminServiceProvider.php:91-104 | registers the asset listeners; afterwards every event also causes its asset reaction |
| Admin.Boot | src/Admin/AdminServiceProvider.php:69-76 | populates the routes, then registers the listeners |
| Events.AssetReaction | src/Admin/AdminServiceProvider.php:94-104 | a Saved event flushes the CSS iff its key matches the theme pattern, and otherwise does nothing; Enabled and Disabled flush all assets |
| Events.React | src/Forum/ForumServiceProvider.php:121-139 | `flushWebAppAssets` always flushes everything; the theme listener flushes the CSS exactly for Saved events with a theme key |
| Events.Reactions | src/Admin/AdminServiceProvider.php:96-104 | firing an event yields at most one action per registered listener, and none when no listener is registered for its class |
| Events.ReactionsAppend | src/Forum/ForumServiceProvider.php:130-133 | listeners registered later act after the earlier ones, which keep their effect |
| Events.AssetListenersReact | src/Forum/ForumServiceProvider.php:119-134 | adding the asset listeners to any dispatcher adds exactly the asset reaction after the earlier listeners' |
| Events.Dispatcher.Listen | src/Admin/AdminServiceProvider.php:103-104 | registration appends one listener for one event class |
| Events.ThemeKeyFlushesCss | src/Forum/ForumServiceProvider.php:122 | a key that matches `^theme_` or `^custom_less$` ignoring case is at least six characters long and starts with `t` or `c` in either case |
| Events.ThemeKeyFoldedForm | src/Forum/ForumServiceProvider.php:122 | a key matches iff its lower-cased form starts with `theme_` or is `custom_less` (optionally followed by one newline) |
| Events.ThemeKeyIgnoresCase | src/Admin/AdminServiceProvider.php:97 | keys equal up to ASCII case get the same answer |
| Events.ThemeKeyExamples | src/Forum/ForumServiceProvider.php:122 | `theme_primary_color`, `THEME_dark_mode` and `Custom_LESS` match; `custom_less\n` (the `$` anchor) matches too; `custom_less_extra`, `forum_theme_color` and `theme` do not |
| Text.LowerAscii | src/Forum/ForumServiceProvider.php:122 | the `/i` flag's case folding: same length, each character folded, A-Z to a-z only |
| Routes.StaticGetHandler | src/Forum/ForumServiceProvider.php:106-107 | there is an entry for a path iff some static GET route was added for it; the entry is the handler of the last such route |
| Routes.StaticGetLatestWins | src/Forum/ForumServiceProvider.php:112-116 | a static GET route just added is the entry for its path |
| Routes.StaticGetFrame | src/Forum/ForumServiceProvider.php:97-107 | routes for other paths, or other methods, leave a path's entry unchanged |
| Routes.RouteCollection.Get | src/Forum/ForumServiceProvider.php:112-116 | `get` appends one GET route with its path, name and handler |
| Routes.RouteCollection.Register | src/Forum/ForumServiceProvider.php:97-102 | a routes callback appends its routes in order |
| Routes.UrlGenerator.AddCollection | src/Admin/AdminServiceProvider.php:35 | records the collection and its prefix under its key |

## Left out

- I/O and environment: `time()`, `str_random`, the contents of `503.html` and the URLs the
  application reports are inputs (`now`, `randomId`, `maintenancePage`, `UrlPaths`).
- Running a pipe on a request: Stratigility's `path()` prefix matching is not modelled, and the
  URL prefixes are opaque data. The 503 property is stated on the maintenance pipe's only stage,
  which answers without looking at the request.
- FastRoute's matching and route-data layout: a route collection is the sequence of routes added
  to it, and the static GET table is derived from it. Registering a path twice, which the router
  rejects, is modelled as the later registration winning. Paths with optional segments are
  treated as non-static. What is left out is the inside of Flarum's `RouteCollection` (FastRoute
  route parsing and route-data generation), URL building in `UrlGenerator`, and
  `RouteHandlerFactory`. In their place, a collection is the sequence of routes added to it, the
  generator is a map from a key to its route table and prefix, and a factory handler is the name
  of the controller it resolves.
- Container `make`/`call` are oracle functions returning a request handler or some other object.
  Which strings PHP's `is_callable` accepts is decided by the caller (`CallableSpec` vs
  `ClassSpec`).
- ControllerRouteHandler.MergeParams: `array_merge` renumbers integer keys. Params are modelled
  as string-keyed maps of strings, so numeric-string keys and array values are not modelled.
- User.ValidOrFail: time is whole seconds and one day is 86400 s. `DateTime('-1 day')` is
  calendar-based, with sub-second precision; daylight-saving changes and fractional seconds are
  not modelled.
- Foundation.InMaintenanceMode: configuration values are booleans, integers, strings or null.
  Arrays and floats under `offline` are not modelled.
- Text.Lower: case folding covers ASCII only, as PCRE's default tables do; PHP strings are bytes,
  keys here are character sequences.
- The admin provider's `CheckCustomLessFormat` subscriber: that class is not part of this model.
- View loading and sharing, the translator, the routes files' contents, and the actual asset
  flushing (`flushCss`/`flush`) are left out. Asset flushing is recorded as an action.
- The event dispatcher's mechanics are reduced to firing listeners in registration order.
