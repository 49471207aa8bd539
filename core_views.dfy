/** The module lifecycle views of core/views.py: those of engine/views.py
    behind a login, with Django's URL resolver caches cleared after a
    module is installed or uninstalled.  `cleared` reports whether
    clear_url_caches ran.  upgrade_module is the same as in engine/views.py
    and is modelled once, as EngineViews.Upgrade. */
module CoreViews {
  import opened ModuleRegistry

  /** module_list, for a logged-in user. */
  method ModuleList(table: ModuleTable, authenticated: bool, dirExists: bool, entries: seq<DirEntry>) returns (page: Page)
    requires table.Valid()
    modifies table
    ensures table.Valid()
    ensures !authenticated ==> page == LoginRedirect && table.order == old(table.order) && table.installed == old(table.installed)
    ensures authenticated ==> page == ModuleListPage(if dirExists then Packages(entries) else [])
    ensures authenticated ==> table.order == Registered(old(table.order), page.modules)
    ensures forall n :: n in old(table.installed) ==> n in table.installed && table.installed[n] == old(table.installed)[n]
    ensures forall n :: n in table.installed && n !in old(table.installed) ==> !table.installed[n]
  {
    if !authenticated {
      return LoginRedirect;
    }
    var listed := table.RegisterPackages(dirExists, entries);
    page := ModuleListPage(listed);
  }

  /** install_module: as in engine/views.py, and a successful install
      clears the URL caches. */
  method Install(table: ModuleTable, authenticated: bool, name: string, migrated: bool) returns (page: Page, cleared: bool)
    requires table.Valid()
    modifies table
    ensures table.Valid() && table.order == old(table.order)
    ensures cleared <==> page == ModuleListRedirect(Success)
    ensures !authenticated ==> page == LoginRedirect && table.installed == old(table.installed)
    ensures authenticated && name !in old(table.installed) ==> page == NotFound404 && table.installed == old(table.installed)
    ensures authenticated && name in old(table.installed) && !old(table.installed)[name] ==>
      if migrated then page == ModuleListRedirect(Success) && table.installed == old(table.installed)[name := true]
      else page == ModuleListRedirect(Failure) && table.installed == old(table.installed)
    ensures authenticated && name in old(table.installed) && old(table.installed)[name] ==>
      page == ModuleListRedirect(Warning) && table.installed == old(table.installed)
  {
    cleared := false;
    if !authenticated {
      return LoginRedirect, cleared;
    }
    if name !in table.installed {
      return NotFound404, cleared;
    }
    if !table.installed[name] {
      if migrated {
        table.SetInstalled(name, true);
        cleared := true;
        page := ModuleListRedirect(Success);
      } else {
        page := ModuleListRedirect(Failure);
      }
    } else {
      page := ModuleListRedirect(Warning);
    }
  }

  /** uninstall_module: as in engine/views.py, and a successful uninstall
      clears the URL caches. */
  method Uninstall(table: ModuleTable, authenticated: bool, name: string) returns (page: Page, cleared: bool)
    requires table.Valid()
    modifies table
    ensures table.Valid() && table.order == old(table.order)
    ensures cleared <==> page == ModuleListRedirect(Success)
    ensures !authenticated ==> page == LoginRedirect && table.installed == old(table.installed)
    ensures authenticated && name !in old(table.installed) ==> page == NotFound404 && table.installed == old(table.installed)
    ensures authenticated && name in old(table.installed) && old(table.installed)[name] ==>
      page == ModuleListRedirect(Success) && table.installed == old(table.installed)[name := false]
    ensures authenticated && name in old(table.installed) && !old(table.installed)[name] ==>
      page == ModuleListRedirect(Warning) && table.installed == old(table.installed)
  {
    cleared := false;
    if !authenticated {
      return LoginRedirect, cleared;
    }
    if name !in table.installed {
      return NotFound404, cleared;
    }
    if table.installed[name] {
      table.SetInstalled(name, false);
      cleared := true;
      page := ModuleListRedirect(Success);
    } else {
      page := ModuleListRedirect(Warning);
    }
  }
}
