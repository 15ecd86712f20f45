/**
 * Route collections and the URL generator's registry of them. A collection
 * records every route added to it; the FastRoute table of static GET routes
 * (`getRouteData()[0]['GET']`) is derived from that record.
 */
module Routes {
  import opened Wrappers
  import opened Pipeline

  datatype HttpMethod = GET | POST | PATCH | DELETE

  /** What RouteHandlerFactory produces: a handler that resolves the named controller. */
  datatype Handler = ToController(controller: string)

  datatype Route = Route(verb: HttpMethod, path: string, name: string, handler: Handler)

  /** A path without placeholders (`{id}`) or optional segments (`[...]`). */
  predicate IsStaticPath(path: string)
  {
    forall i :: 0 <= i < |path| ==> path[i] != '{' && path[i] != '['
  }

  /** `r` puts a static GET entry for `path` into the route data. */
  predicate IsStaticGet(r: Route, path: string)
  {
    r.verb == GET && r.path == path && IsStaticPath(path)
  }

  /** No route after position `i` puts a static GET entry for `path` into the route data. */
  predicate NoLaterStaticGet(routes: seq<Route>, i: nat, path: string)
  {
    forall j :: i < j < |routes| ==> !IsStaticGet(routes[j], path)
  }

  /**
   * The handler under `path` in the static GET route data, if any: the most
   * recently added static GET route for that path.
   */
  function StaticGetHandler(routes: seq<Route>, path: string): (r: Option<Handler>)
    ensures r.None? <==> forall i :: 0 <= i < |routes| ==> !IsStaticGet(routes[i], path)
    ensures r.Some? ==> exists i: nat :: (i < |routes| && IsStaticGet(routes[i], path) &&
      routes[i].handler == r.value && NoLaterStaticGet(routes, i, path))
  {
    if routes == [] then None
    else
      var last := |routes| - 1;
      if IsStaticGet(routes[last], path) then
        assert NoLaterStaticGet(routes, last, path);
        Some(routes[last].handler)
      else
        var init := routes[..last];
        var r := StaticGetHandler(init, path);
        assert forall i :: 0 <= i < last ==> init[i] == routes[i];
        assert r.Some? ==> exists i: nat :: (i < last && IsStaticGet(routes[i], path) &&
          routes[i].handler == r.value && NoLaterStaticGet(routes, i, path)) by {
          if r.Some? {
            var i: nat :| i < |init| && IsStaticGet(init[i], path) &&
              init[i].handler == r.value && NoLaterStaticGet(init, i, path);
            assert NoLaterStaticGet(routes, i, path);
          }
        }
        r
  }

  /** Adding a static GET route makes it the one the route data holds for its path. */
  lemma StaticGetLatestWins(routes: seq<Route>, path: string, name: string, handler: Handler)
    requires IsStaticPath(path)
    ensures StaticGetHandler(routes + [Route(GET, path, name, handler)], path) == Some(handler)
  {
  }

  /** Adding a route for another path, or a non-GET route, leaves the entry for `path` alone. */
  lemma {:induction false} StaticGetFrame(routes: seq<Route>, added: seq<Route>, path: string)
    requires forall i :: 0 <= i < |added| ==> !IsStaticGet(added[i], path)
    ensures StaticGetHandler(routes + added, path) == StaticGetHandler(routes, path)
  {
    if added == [] {
      assert routes + added == routes;
    } else {
      var init := added[..|added| - 1];
      assert (routes + added)[..|routes + added| - 1] == routes + init;
      var all := routes + added;
      assert all[|all| - 1] == added[|added| - 1];
      assert !IsStaticGet(all[|all| - 1], path);
      assert StaticGetHandler(all, path) == StaticGetHandler(all[..|all| - 1], path);
      StaticGetFrame(routes, init, path);
    }
  }

  class RouteCollection {
    /** Every route added so far, in the order it was added. */
    var routes: seq<Route>

    constructor ()
      ensures routes == []
    {
      routes := [];
    }

    /** The static GET route data, read as `getRouteData()[0]['GET'][path]`. */
    function StaticGet(path: string): Option<Handler>
      reads this
    {
      StaticGetHandler(routes, path)
    }

    method AddRoute(route: Route)
      modifies this
      ensures routes == old(routes) + [route]
    {
      routes := routes + [route];
    }

    /** `$routes->get($path, $name, $handler)`. */
    method Get(path: string, name: string, handler: Handler)
      modifies this
      ensures routes == old(routes) + [Route(GET, path, name, handler)]
    {
      AddRoute(Route(GET, path, name, handler));
    }

    /**
     * The calls a route-populating callback makes (a `routes.php` file or a
     * ConfigureForumRoutes listener), in order.
     */
    method Register(added: seq<Route>)
      modifies this
      ensures routes == old(routes) + added
    {
      for i := 0 to |added|
        invariant routes == old(routes) + added[..i]
      {
        AddRoute(added[i]);
        assert added[..i + 1] == added[..i] + [added[i]];
      }
      assert added[..|added|] == added;
    }
  }

  /** The URL generator's named route collections, each with an optional path prefix. */
  class UrlGenerator {
    var collections: map<string, (RouteTable, Option<string>)>

    constructor ()
      ensures collections == map[]
    {
      collections := map[];
    }

    method AddCollection(key: string, routes: RouteTable, prefix: Option<string>)
      modifies this
      ensures collections == old(collections)[key := (routes, prefix)]
    {
      collections := collections[key := (routes, prefix)];
    }
  }
}
