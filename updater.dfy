/** The runtime module updater of modules/updater.py: reloading or
    importing a module's Python files, flipping its installed flag, and
    refreshing the URL patterns, all without restarting the server.

    `loaded` is the set of names in sys.modules.  Which module paths raise
    when imported or reloaded is an input (`failing`), and so is whether the
    two migration commands succeed (`migrated`). */
module Updater {
  import opened ModuleRegistry
  import opened Urls
  import opened Common

  /** The six paths reload_file tries, in order. */
  function Candidates(name: string): (paths: seq<string>)
    ensures |paths| == 6
  {
    var base := "modules." + name;
    [base, base + ".models", base + ".views", base + ".forms", base + ".urls", base + ".apps"]
  }

  function AppsPath(name: string): string {
    "modules." + name + ".apps"
  }

  /** The paths that reload or import without raising, in order. */
  function Surviving(paths: seq<string>, failing: set<string>): (r: seq<string>)
    ensures |r| <= |paths|
    decreases |paths|
  {
    if paths == [] then []
    else
      var before := Surviving(paths[..|paths| - 1], failing);
      if paths[|paths| - 1] in failing then before else before + [paths[|paths| - 1]]
  }

  /** The surviving paths are exactly the candidates that do not fail, so
      reload_file reports at most six paths, each one of its candidates. */
  lemma {:induction false} SurvivingMembers(paths: seq<string>, failing: set<string>, p: string)
    ensures p in Surviving(paths, failing) <==> p in paths && p !in failing
    decreases |paths|
  {
    if paths != [] {
      var init := paths[..|paths| - 1];
      SurvivingMembers(init, failing, p);
      assert paths == init + [paths[|paths| - 1]];
    }
  }

  function SetOf(s: seq<string>): set<string> {
    set p | p in s
  }

  /** Everything reload_file leaves in sys.modules for each of the names. */
  function AllSurviving(names: seq<string>, failing: set<string>): set<string>
    decreases |names|
  {
    if names == [] then {}
    else AllSurviving(names[..|names| - 1], failing) + SetOf(Surviving(Candidates(names[|names| - 1]), failing))
  }

  class Runtime {
    var loaded: set<string>
    const table: ModuleTable
    const conf: UrlConf

    constructor (loaded: set<string>, table: ModuleTable, conf: UrlConf)
      ensures this.loaded == loaded && this.table == table && this.conf == conf
    {
      this.loaded := loaded;
      this.table := table;
      this.conf := conf;
    }

    /** ModuleUpdater.reload_file: each candidate already in sys.modules is
        reloaded, any other is imported; the ones that raise are skipped. */
    method ReloadFile(name: string, failing: set<string>) returns (reloaded: seq<string>)
      modifies this`loaded
      ensures reloaded == Surviving(Candidates(name), failing)
      ensures loaded == old(loaded) + SetOf(reloaded)
    {
      var paths := Candidates(name);
      reloaded := [];
      var k := 0;
      while k < |paths|
        invariant 0 <= k <= |paths|
        invariant reloaded == Surviving(paths[..k], failing)
        invariant loaded == old(loaded) + SetOf(reloaded)
      {
        var path := paths[k];
        assert paths[..k + 1][..k] == paths[..k];
        if path !in failing {
          if path !in loaded {
            loaded := loaded + {path};
          }
          reloaded := reloaded + [path];
        }
        k := k + 1;
      }
      assert paths[..|paths|] == paths;
    }

    /** ModuleUpdater.reload_app_config: True only when the apps module was
        already imported and reloads; the other branch indexes sys.modules
        with the missing name, raises KeyError, and answers False. */
    method ReloadAppConfig(name: string, failing: set<string>) returns (ok: bool)
      ensures ok <==> AppsPath(name) in loaded && AppsPath(name) !in failing
    {
      var path := AppsPath(name);
      if path in loaded {
        ok := path !in failing;
      } else {
        ok := false;
      }
    }

    /** ModuleUpdater.reload_url_patterns: reload mOdoo.urls when imported,
        then hand the fresh list to the resolver; False when that raises. */
    method ReloadUrlPatterns(env: UrlEnv) returns (ok: bool)
      requires table.Valid()
      modifies conf
      ensures var r := DynamicPatterns(env, InstalledNames(table.order, table.installed));
        && (ok <==> r.Patterns?)
        && (ok ==> conf.resolver == r.routes && conf.current == Some(r.routes))
        && (!ok ==> conf.resolver == old(conf.resolver))
    {
      var result := conf.UpdateUrlpatterns("mOdoo.urls" in loaded, env, InstalledNames(table.order, table.installed));
      ok := result.Patterns?;
    }

    /** ModuleUpdater.install_module: the flag is set and saved first, then
        files, app config and URL patterns are reloaded and the migrations
        run; a migration failure answers False with the flag already set. */
    method InstallModule(name: string, failing: set<string>, env: UrlEnv, migrated: bool) returns (ok: bool)
      requires table.Valid()
      modifies this`loaded, table, conf
      ensures table.Valid() && table.order == old(table.order)
      ensures name !in old(table.installed) ==>
        !ok && table.installed == old(table.installed) && loaded == old(loaded) && conf.resolver == old(conf.resolver)
      ensures name in old(table.installed) ==>
        && table.installed == old(table.installed)[name := true]
        && ok == migrated
        && loaded == old(loaded) + SetOf(Surviving(Candidates(name), failing))
        && ResolverRefreshed(env, old(conf.resolver))
    {
      if name !in table.installed {
        return false;
      }
      table.SetInstalled(name, true);
      var _ := ReloadFile(name, failing);
      var _ := ReloadAppConfig(name, failing);
      var _ := ReloadUrlPatterns(env);
      ok := migrated;
    }

    /** The resolver holds the list computed from the current flags, or is
        left as it was when that computation raised. */
    ghost predicate ResolverRefreshed(env: UrlEnv, before: seq<Route>)
      requires table.Valid()
      reads this, table, conf
    {
      var r := DynamicPatterns(env, InstalledNames(table.order, table.installed));
      conf.resolver == if r.Patterns? then r.routes else before
    }

    /** ModuleUpdater.uninstall_module: the flag is cleared and the URL
        patterns refreshed; only an unknown module answers False. */
    method UninstallModule(name: string, env: UrlEnv) returns (ok: bool)
      requires table.Valid()
      modifies table, conf
      ensures table.Valid() && table.order == old(table.order)
      ensures ok <==> name in old(table.installed)
      ensures !ok ==> table.installed == old(table.installed) && conf.resolver == old(conf.resolver)
      ensures ok ==> table.installed == old(table.installed)[name := false] && ResolverRefreshed(env, old(conf.resolver))
    {
      if name !in table.installed {
        return false;
      }
      table.SetInstalled(name, false);
      var _ := ReloadUrlPatterns(env);
      ok := true;
    }

    /** ModuleUpdater.upgrade_module: an unknown or uninstalled module
        answers False untouched; an installed one is reloaded and migrated,
        and its flag never changes. */
    method UpgradeModule(name: string, failing: set<string>, env: UrlEnv, migrated: bool) returns (ok: bool)
      requires table.Valid()
      modifies this`loaded, conf
      ensures !(name in table.installed && table.installed[name]) ==>
        !ok && loaded == old(loaded) && conf.resolver == old(conf.resolver)
      ensures name in table.installed && table.installed[name] ==>
        && ok == migrated
        && loaded == old(loaded) + SetOf(Surviving(Candidates(name), failing))
        && ResolverRefreshed(env, old(conf.resolver))
    {
      if name !in table.installed || !table.installed[name] {
        return false;
      }
      var _ := ReloadFile(name, failing);
      var _ := ReloadAppConfig(name, failing);
      var _ := ReloadUrlPatterns(env);
      ok := migrated;
    }

    /** ModuleUpdater.reload_all_modules: files and app config of every
        installed module, then the URL patterns; False when the Module table
        cannot be read. */
    method ReloadAllModules(failing: set<string>, env: UrlEnv) returns (ok: bool)
      requires table.Valid()
      modifies this`loaded, conf
      ensures !env.dbReady ==> !ok && loaded == old(loaded) && conf.resolver == old(conf.resolver)
      ensures env.dbReady ==>
        && ok
        && loaded == old(loaded) + AllSurviving(InstalledNames(table.order, table.installed), failing)
        && ResolverRefreshed(env, old(conf.resolver))
    {
      if !env.dbReady {
        return false;
      }
      var names := InstalledNames(table.order, table.installed);
      var k := 0;
      while k < |names|
        invariant 0 <= k <= |names|
        invariant loaded == old(loaded) + AllSurviving(names[..k], failing)
        invariant conf.resolver == old(conf.resolver)
      {
        assert names[..k + 1][..k] == names[..k];
        var _ := ReloadFile(names[k], failing);
        var _ := ReloadAppConfig(names[k], failing);
        k := k + 1;
      }
      assert names[..|names|] == names;
      var _ := ReloadUrlPatterns(env);
      ok := true;
    }
  }

  /** Installing through the updater gives the module its route whenever
      the table is readable, no include() raises and its own urls import. */
  lemma InstallRoutes(env: UrlEnv, order: seq<string>, installed: map<string, bool>, name: string)
    requires env.engineApp && env.dbReady && name in order && name in installed
    requires forall n :: n in order ==> UrlsModule(n) !in env.raising
    requires UrlsModule(name) !in env.broken
    ensures var r := DynamicPatterns(env, InstalledNames(order, installed[name := true]));
      r.Patterns? && ModuleRoute(name) in r.routes
    ensures var r := DynamicPatterns(env, InstalledNames(order, installed[name := false]));
      r.Patterns? && ModuleRoute(name) !in r.routes[2..]
  {
    var on, off := installed[name := true], installed[name := false];
    InstalledNamesComplete(order, on, name);
    InstalledRoutes(env, InstalledNames(order, on), name);
    var r := DynamicPatterns(env, InstalledNames(order, on));
    assert r.routes == r.routes[..2] + r.routes[2..];
    InstalledRoutes(env, InstalledNames(order, off), name);
  }
}
