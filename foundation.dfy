/**
 * The installed application's choice of top-level pipe: the maintenance
 * page, the updater, or the three surfaces mounted under their URL prefixes.
 */
module Foundation {
  import opened Pipeline

  /** A scalar read from the application's configuration array. */
  datatype ConfigValue = BoolValue(b: bool) | IntValue(i: int) | StringValue(s: string) | NullValue

  type Config = map<string, ConfigValue>

  /** PHP's conversion of a scalar to `bool`. */
  predicate Truthy(v: ConfigValue)
  {
    match v
    case BoolValue(b) => b
    case IntValue(i) => i != 0
    case StringValue(s) => s != "" && s != "0"
    case NullValue => false
  }

  /**
   * `$config['offline'] ?? false`, converted to the declared `bool` return
   * type: a missing or null entry reads as false.
   */
  function InMaintenanceMode(config: Config): (r: bool)
    ensures "offline" !in config ==> !r
    ensures "offline" in config && config["offline"] == NullValue ==> !r
    ensures "offline" in config && config["offline"].BoolValue? ==> r == config["offline"].b
    ensures "offline" in config && config["offline"] == StringValue("0") ==> !r
  {
    "offline" in config && Truthy(config["offline"])
  }

  /** The update check is hard-wired: no update is ever pending. */
  function NeedsUpdate(): (r: bool)
    ensures !r
  {
    false
  }

  /**
   * What `parse_url($laravel->url(...), PHP_URL_PATH)` yields for the API,
   * the admin and the forum base URLs; "" stands for a URL without a path.
   */
  datatype UrlPaths = UrlPaths(api: string, admin: string, forum: string)

  /** `$forumPath ?: '/'`: a falsy path ("" or "0") becomes the root. */
  function ForumPrefix(forumPath: string): (prefix: string)
    ensures prefix != ""
    ensures forumPath != "" && forumPath != "0" ==> prefix == forumPath
    ensures forumPath == "" || forumPath == "0" ==> prefix == "/"
  {
    if forumPath == "" || forumPath == "0" then "/" else forumPath
  }

  /** A surface's pipeline mounted under a URL prefix. */
  datatype Mount = Mount(prefix: string, surface: Surface)

  /** Which top-level pipe `getMiddleware` builds. */
  datatype Mode = Maintenance | Updater | Normal(mounts: seq<Mount>)

  /** The decision `getMiddleware` takes, in its priority order. */
  function SelectMode(config: Config, paths: UrlPaths): (m: Mode)
    ensures InMaintenanceMode(config) <==> m == Maintenance
    ensures !m.Updater?
    ensures !InMaintenanceMode(config) ==> m.Normal? && |m.mounts| == 3
    ensures m.Normal? ==>
      && |m.mounts| == 3
      && m.mounts[0] == Mount(paths.api, ApiSurface)
      && m.mounts[1] == Mount(paths.admin, AdminSurface)
      && m.mounts[2].surface == ForumSurface
      && m.mounts[2].prefix == ForumPrefix(paths.forum)
  {
    if InMaintenanceMode(config) then Maintenance
    else if NeedsUpdate() then Updater
    else Normal([
      Mount(paths.api, ApiSurface),
      Mount(paths.admin, AdminSurface),
      Mount(ForumPrefix(paths.forum), ForumSurface)
    ])
  }

  /** The stages of the pipe built for `m`; `page` is the text of 503.html. */
  function ModeStages(m: Mode, page: string): (stages: seq<Stage>)
    ensures m == Maintenance ==> stages == [RespondWith(503, page)]
    ensures m == Updater ==> stages == [DispatchRoute(UpdateRoutes)]
    ensures m.Normal? ==> (|stages| == |m.mounts| &&
      forall i :: 0 <= i < |m.mounts| ==> stages[i] == Path(m.mounts[i].prefix, m.mounts[i].surface))
  {
    match m
    case Maintenance => [RespondWith(503, page)]
    case Updater => [DispatchRoute(UpdateRoutes)]
    case Normal(mounts) => seq(|mounts|, i requires 0 <= i < |mounts| => Path(mounts[i].prefix, mounts[i].surface))
  }

  /**
   * Whatever the rest of the configuration and the URLs, an offline
   * application answers with a single stage that responds 503.
   */
  lemma OfflineAlwaysAnswers503(config: Config, paths: UrlPaths, page: string)
    requires InMaintenanceMode(config)
    ensures |ModeStages(SelectMode(config, paths), page)| == 1
    ensures ModeStages(SelectMode(config, paths), page)[0].RespondWith?
    ensures ModeStages(SelectMode(config, paths), page)[0].status == 503
  {
  }

  /** Without the offline flag the three surfaces are mounted: API, then admin, then forum. */
  lemma OnlineMountsThreeSurfaces(config: Config, paths: UrlPaths, page: string)
    requires !InMaintenanceMode(config)
    ensures ModeStages(SelectMode(config, paths), page) == [
      Path(paths.api, ApiSurface),
      Path(paths.admin, AdminSurface),
      Path(ForumPrefix(paths.forum), ForumSurface)
    ]
  {
    var m := SelectMode(config, paths);
    var stages := ModeStages(m, page);
    assert stages[0] == Path(m.mounts[0].prefix, m.mounts[0].surface);
    assert stages[1] == Path(m.mounts[1].prefix, m.mounts[1].surface);
    assert stages[2] == Path(m.mounts[2].prefix, m.mounts[2].surface);
  }

  /** A configuration without an `offline` entry is not in maintenance mode. */
  lemma MissingOfflineIsOnline(config: Config, paths: UrlPaths)
    requires "offline" !in config
    ensures SelectMode(config, paths).Normal?
  {
  }

  /** The commands `getConsoleCommands` returns. */
  datatype Command =
    | GenerateMigrationCommand
    | InfoCommand(config: Config)
    | MigrateCommand
    | ResetCommand
    | CacheClearCommand

  class InstalledApp {
    /** The configuration array the application was constructed with. */
    const config: Config
    /** The paths of the application's API, admin and forum URLs. */
    const paths: UrlPaths
    /** The contents of 503.html. */
    const maintenancePage: string

    constructor (config: Config, paths: UrlPaths, maintenancePage: string)
      ensures this.config == config && this.paths == paths && this.maintenancePage == maintenancePage
    {
      this.config := config;
      this.paths := paths;
      this.maintenancePage := maintenancePage;
    }

    method GetMiddleware() returns (pipe: MiddlewarePipe)
      ensures fresh(pipe)
      ensures pipe.stages == ModeStages(SelectMode(config, paths), maintenancePage)
    {
      if InMaintenanceMode(config) {
        pipe := GetMaintenanceMiddleware();
        return;
      } else if NeedsUpdate() {
        pipe := GetUpdaterMiddleware();
        return;
      }

      pipe := new MiddlewarePipe();
      pipe.Pipe(Path(paths.api, ApiSurface));
      pipe.Pipe(Path(paths.admin, AdminSurface));
      pipe.Pipe(Path(ForumPrefix(paths.forum), ForumSurface));
      OnlineMountsThreeSurfaces(config, paths, maintenancePage);
    }

    method GetMaintenanceMiddleware() returns (pipe: MiddlewarePipe)
      ensures fresh(pipe)
      ensures pipe.stages == [RespondWith(503, maintenancePage)]
    {
      pipe := new MiddlewarePipe();
      pipe.Pipe(RespondWith(503, maintenancePage));
    }

    method GetUpdaterMiddleware() returns (pipe: MiddlewarePipe)
      ensures fresh(pipe)
      ensures pipe.stages == [DispatchRoute(UpdateRoutes)]
    {
      pipe := new MiddlewarePipe();
      pipe.Pipe(DispatchRoute(UpdateRoutes));
    }

    /** Five commands, in this order; only the info command is given the configuration. */
    function ConsoleCommands(): (commands: seq<Command>)
      ensures |commands| == 5
      ensures commands[0] == GenerateMigrationCommand
      ensures commands[1] == InfoCommand(config)
      ensures commands[2] == MigrateCommand
      ensures commands[3] == ResetCommand
      ensures commands[4] == CacheClearCommand
      ensures forall i :: 0 <= i < 5 && commands[i].InfoCommand? ==> commands[i].config == config
    {
      [GenerateMigrationCommand, InfoCommand(config), MigrateCommand, ResetCommand, CacheClearCommand]
    }
  }
}
