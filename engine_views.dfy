/** The module lifecycle views of engine/views.py: list the module
    packages, and install, uninstall or upgrade one module.  The migration
    commands are an input: `migrated` says whether both makemigrations and
    migrate ran without raising. */
module EngineViews {
  import opened ModuleRegistry

  /** module_list: every package under modules/ gets a Module row (new rows
      uninstalled) and is listed in directory order. */
  method ModuleList(table: ModuleTable, dirExists: bool, entries: seq<DirEntry>) returns (page: Page)
    requires table.Valid()
    modifies table
    ensures table.Valid()
    ensures page == ModuleListPage(if dirExists then Packages(entries) else [])
    ensures table.order == Registered(old(table.order), page.modules)
    ensures forall n :: n in old(table.installed) ==> n in table.installed && table.installed[n] == old(table.installed)[n]
    ensures forall n :: n in table.installed && n !in old(table.installed) ==> !table.installed[n]
  {
    var listed := table.RegisterPackages(dirExists, entries);
    page := ModuleListPage(listed);
  }

  /** install_module: an uninstalled module becomes installed only once
      both migration commands succeed; an installed one is left alone with
      a warning. */
  method Install(table: ModuleTable, authenticated: bool, name: string, migrated: bool) returns (page: Page)
    requires table.Valid()
    modifies table
    ensures table.Valid() && table.order == old(table.order)
    ensures !authenticated ==> page == LoginRedirect && table.installed == old(table.installed)
    ensures authenticated && name !in old(table.installed) ==> page == NotFound404 && table.installed == old(table.installed)
    ensures authenticated && name in old(table.installed) && !old(table.installed)[name] ==>
      if migrated then page == ModuleListRedirect(Success) && table.installed == old(table.installed)[name := true]
      else page == ModuleListRedirect(Failure) && table.installed == old(table.installed)
    ensures authenticated && name in old(table.installed) && old(table.installed)[name] ==>
      page == ModuleListRedirect(Warning) && table.installed == old(table.installed)
  {
    if !authenticated {
      return LoginRedirect;
    }
    if name !in table.installed {
      return NotFound404;
    }
    if !table.installed[name] {
      if migrated {
        table.SetInstalled(name, true);
        page := ModuleListRedirect(Success);
      } else {
        page := ModuleListRedirect(Failure);
      }
    } else {
      page := ModuleListRedirect(Warning);
    }
  }

  /** uninstall_module: an installed module becomes uninstalled; an
      uninstalled one is left alone with a warning. */
  method Uninstall(table: ModuleTable, authenticated: bool, name: string) returns (page: Page)
    requires table.Valid()
    modifies table
    ensures table.Valid() && table.order == old(table.order)
    ensures !authenticated ==> page == LoginRedirect && table.installed == old(table.installed)
    ensures authenticated && name !in old(table.installed) ==> page == NotFound404 && table.installed == old(table.installed)
    ensures authenticated && name in old(table.installed) && old(table.installed)[name] ==>
      page == ModuleListRedirect(Success) && table.installed == old(table.installed)[name := false]
    ensures authenticated && name in old(table.installed) && !old(table.installed)[name] ==>
      page == ModuleListRedirect(Warning) && table.installed == old(table.installed)
  {
    if !authenticated {
      return LoginRedirect;
    }
    if name !in table.installed {
      return NotFound404;
    }
    if table.installed[name] {
      table.SetInstalled(name, false);
      page := ModuleListRedirect(Success);
    } else {
      page := ModuleListRedirect(Warning);
    }
  }

  /** upgrade_module (the same in core/views.py): the migrations run only
      for an installed module, and no flag ever changes. */
  method Upgrade(table: ModuleTable, authenticated: bool, name: string, migrated: bool) returns (page: Page)
    requires table.Valid()
    ensures !authenticated ==> page == LoginRedirect
    ensures authenticated && name !in table.installed ==> page == NotFound404
    ensures authenticated && name in table.installed && table.installed[name] ==>
      page == ModuleListRedirect(if migrated then Success else Failure)
    ensures authenticated && name in table.installed && !table.installed[name] ==> page == ModuleListRedirect(Warning)
  {
    if !authenticated {
      return LoginRedirect;
    }
    if name !in table.installed {
      return NotFound404;
    }
    if table.installed[name] {
      page := ModuleListRedirect(if migrated then Success else Failure);
    } else {
      page := ModuleListRedirect(Warning);
    }
  }
}
