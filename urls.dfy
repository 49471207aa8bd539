/** The dynamic URL configuration of mOdoo/urls.py: the route list is the
    admin and engine routes followed by one route per installed module,
    falling back to one route per module package when the database cannot
    be read; the last list computed is remembered and handed to the
    resolver.

    Whether `include('modules.<name>.urls')` works is an input: targets in
    `broken` raise ImportError (and are skipped), targets in `raising` raise
    anything else. */
module Urls {
  import opened ModuleRegistry
  import opened Common

  /** path(prefix, include(target)). */
  datatype Route = Route(prefix: string, target: string)

  const AdminRoute: Route := Route("admin/", "admin.site.urls")
  const EngineRoute: Route := Route("", "engine.urls")
  const BaseRoutes: seq<Route> := [AdminRoute, EngineRoute]

  function UrlsModule(name: string): string {
    "modules." + name + ".urls"
  }

  /** path(f'{name}/', include(f'modules.{name}.urls')). */
  function ModuleRoute(name: string): Route {
    Route(name + "/", UrlsModule(name))
  }

  /** The environment a route list is computed in: whether the engine app
      is installed and listed in INSTALLED_APPS, whether the Module table
      can be read, the module packages on disk, and how include() fares. */
  datatype UrlEnv = UrlEnv(engineApp: bool, dbReady: bool, packages: seq<string>,
                           broken: set<string>, raising: set<string>)

  /** The routes one of the two loops appends, and whether an include()
      raised something other than ImportError, which ends the loop. */
  datatype Collected = Collected(routes: seq<Route>, raised: bool)

  function Collect(names: seq<string>, env: UrlEnv): Collected
    decreases |names|
  {
    if names == [] then Collected([], false)
    else
      var before := Collect(names[..|names| - 1], env);
      var target := UrlsModule(names[|names| - 1]);
      if before.raised then before
      else if target in env.raising then before.(raised := true)
      else if target in env.broken then before
      else before.(routes := before.routes + [ModuleRoute(names[|names| - 1])])
  }

  /** The outcome of get_dynamic_urlpatterns: a route list, or an exception
      out of the fallback loop. */
  datatype UrlResult = Patterns(routes: seq<Route>) | Raised

  /** get_dynamic_urlpatterns over the installed module names.  An error in
      the database branch (an unreadable table, or an include() raising
      other than ImportError) falls back to the package scan, which appends
      after whatever the database branch had already appended. */
  function DynamicPatterns(env: UrlEnv, installedNames: seq<string>): UrlResult {
    if !env.engineApp then Patterns(BaseRoutes)
    else
      var db := if env.dbReady then Collect(installedNames, env) else Collected([], true);
      if !db.raised then Patterns(BaseRoutes + db.routes)
      else
        var scan := Collect(env.packages, env);
        if scan.raised then Raised else Patterns(BaseRoutes + db.routes + scan.routes)
  }

  /** Every collected route is the route of one of the names, whose
      include() works; with no include() raising, a name's route is
      collected exactly when its include() imports. */
  lemma {:induction false} CollectRoutes(names: seq<string>, env: UrlEnv)
    ensures var c := Collect(names, env);
      forall r :: r in c.routes ==> exists n :: n in names && r == ModuleRoute(n) && UrlsModule(n) !in env.broken
    ensures (forall n :: n in names ==> UrlsModule(n) !in env.raising) ==>
      var c := Collect(names, env);
      !c.raised && forall n :: n in names && UrlsModule(n) !in env.broken ==> ModuleRoute(n) in c.routes
    decreases |names|
  {
    if names != [] {
      var init := names[..|names| - 1];
      CollectRoutes(init, env);
      assert forall n :: n in init ==> n in names;
      assert names == init + [names[|names| - 1]];
    }
  }

  lemma ModuleRouteInjective(a: string, b: string)
    requires ModuleRoute(a) == ModuleRoute(b)
    ensures a == b
  {
    assert (a + "/")[..|a|] == a;
    assert (b + "/")[..|b|] == b;
  }

  /** With the table readable and no include() raising, the list is the
      base routes, then the routes of the installed modules whose urls
      import; an uninstalled module has no route. */
  lemma InstalledRoutes(env: UrlEnv, installedNames: seq<string>, name: string)
    requires env.engineApp && env.dbReady
    requires forall n :: n in installedNames ==> UrlsModule(n) !in env.raising
    ensures DynamicPatterns(env, installedNames).Patterns?
    ensures var routes := DynamicPatterns(env, installedNames).routes;
      && routes[..2] == BaseRoutes
      && (ModuleRoute(name) in routes[2..] <==> name in installedNames && UrlsModule(name) !in env.broken)
  {
    CollectRoutes(installedNames, env);
    var c := Collect(installedNames, env);
    var routes := BaseRoutes + c.routes;
    assert routes[..2] == BaseRoutes;
    assert routes[2..] == c.routes;
    if ModuleRoute(name) in c.routes {
      var n :| n in installedNames && ModuleRoute(name) == ModuleRoute(n) && UrlsModule(n) !in env.broken;
      ModuleRouteInjective(name, n);
    }
  }

  /** The list always starts with the admin and engine routes. */
  lemma BaseFirst(env: UrlEnv, installedNames: seq<string>)
    ensures var r := DynamicPatterns(env, installedNames); r.Patterns? ==> |r.routes| >= 2 && r.routes[..2] == BaseRoutes
  {
    var r := DynamicPatterns(env, installedNames);
    if r.Patterns? && env.engineApp {
      var db := if env.dbReady then Collect(installedNames, env) else Collected([], true);
      if db.raised {
        var scan := Collect(env.packages, env);
        assert (BaseRoutes + db.routes + scan.routes)[..2] == BaseRoutes;
      } else {
        assert (BaseRoutes + db.routes)[..2] == BaseRoutes;
      }
    }
  }

  /** The module-level state of mOdoo/urls.py and the resolver's patterns. */
  class UrlConf {
    /** _current_urlpatterns. */
    var current: Option<seq<Route>>
    /** get_resolver().url_patterns. */
    var resolver: seq<Route>

    constructor (resolver: seq<Route>)
      ensures current == None && this.resolver == resolver
    {
      current := None;
      this.resolver := resolver;
    }

    /** One of the two loops: append the route of each name whose
        include() works, skip ImportError, stop at any other error. */
    static method AppendRoutes(routes: seq<Route>, names: seq<string>, env: UrlEnv) returns (out: seq<Route>, raised: bool)
      ensures var c := Collect(names, env); out == routes + c.routes && raised == c.raised
    {
      out, raised := routes, false;
      var k := 0;
      while k < |names|
        invariant 0 <= k <= |names|
        invariant var c := Collect(names[..k], env); out == routes + c.routes && raised == c.raised
      {
        assert names[..k + 1][..k] == names[..k];
        var target := UrlsModule(names[k]);
        if target in env.raising {
          raised := true;
          StopAtRaise(names, k + 1, env);
          return;
        }
        if target !in env.broken {
          out := out + [ModuleRoute(names[k])];
        }
        k := k + 1;
      }
      assert names[..|names|] == names;
    }

    /** get_dynamic_urlpatterns: computes the list and, when it returns,
        remembers it as _current_urlpatterns. */
    method GetDynamicUrlpatterns(env: UrlEnv, installedNames: seq<string>) returns (result: UrlResult)
      modifies this`current
      ensures result == DynamicPatterns(env, installedNames)
      ensures current == if result.Patterns? then Some(result.routes) else old(current)
    {
      var routes := BaseRoutes;
      if env.engineApp {
        var raised := true;
        if env.dbReady {
          routes, raised := AppendRoutes(routes, installedNames, env);
        }
        if raised {
          routes, raised := AppendRoutes(routes, env.packages, env);
          if raised {
            return Raised;
          }
        }
      }
      current := Some(routes);
      result := Patterns(routes);
    }

    /** update_urlpatterns: reloading mOdoo.urls (when it is imported)
        resets _current_urlpatterns and recomputes it at import; the fresh
        list then becomes both the remembered list and the resolver's. */
    method UpdateUrlpatterns(urlsImported: bool, env: UrlEnv, installedNames: seq<string>) returns (result: UrlResult)
      modifies this
      ensures result == DynamicPatterns(env, installedNames)
      ensures result.Patterns? ==> current == Some(result.routes) && resolver == result.routes
      ensures result.Raised? ==> resolver == old(resolver) && current == if urlsImported then None else old(current)
    {
      if urlsImported {
        current := None;
        result := GetDynamicUrlpatterns(env, installedNames);
        if result.Raised? {
          return;
        }
      }
      result := GetDynamicUrlpatterns(env, installedNames);
      if result.Raised? {
        return;
      }
      resolver := result.routes;
    }
  }

  /** Once an include() has raised, the loop has ended. */
  lemma {:induction false} StopAtRaise(names: seq<string>, k: nat, env: UrlEnv)
    requires 0 < k <= |names| && UrlsModule(names[k - 1]) in env.raising
    ensures Collect(names, env) == Collect(names[..k], env).(raised := true)
    decreases |names|
  {
    if k < |names| {
      var init := names[..|names| - 1];
      assert init[..k] == names[..k];
      assert init[k - 1] == names[k - 1];
      StopAtRaise(init, k, env);
    } else {
      assert names[..k] == names;
    }
  }
}
