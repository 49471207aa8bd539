/** The Module table (engine/models.py) that the module lifecycle views,
    the updater and the URL configuration share: one row per module name,
    in creation order, each with its is_installed flag. */
module ModuleRegistry {

  /** An entry of os.listdir(modules_dir): its name and whether it is a
      directory holding an __init__.py. */
  datatype DirEntry = DirEntry(name: string, isPackage: bool)

  /** The flash message a lifecycle view leaves. */
  datatype Notice = Success | Failure | Warning

  /** What a lifecycle view answers: the login redirect of
      @login_required, the 404 of get_object_or_404, a redirect to the
      module list with its message, or the rendered list of module names. */
  datatype Page = LoginRedirect | NotFound404 | ModuleListRedirect(notice: Notice) | ModuleListPage(modules: seq<string>)

  predicate NoDuplicates(s: seq<string>) {
    forall i, j :: 0 <= i < j < |s| ==> s[i] != s[j]
  }

  /** The names of the package entries, in directory order. */
  function Packages(entries: seq<DirEntry>): (names: seq<string>)
    ensures |names| <= |entries|
    decreases |entries|
  {
    if entries == [] then []
    else
      var e := entries[|entries| - 1];
      var init := Packages(entries[..|entries| - 1]);
      if e.isPackage then init + [e.name] else init
  }

  /** A name is listed exactly when some directory entry of that name is a
      package. */
  lemma {:induction false} PackagesListed(entries: seq<DirEntry>, n: string)
    ensures n in Packages(entries) <==> exists k :: 0 <= k < |entries| && entries[k].isPackage && entries[k].name == n
    decreases |entries|
  {
    if entries != [] {
      var init := entries[..|entries| - 1];
      PackagesListed(init, n);
      if exists k :: 0 <= k < |init| && init[k].isPackage && init[k].name == n {
        var k :| 0 <= k < |init| && init[k].isPackage && init[k].name == n;
        assert entries[k] == init[k];
      }
      if exists k :: 0 <= k < |entries| && entries[k].isPackage && entries[k].name == n {
        var k :| 0 <= k < |entries| && entries[k].isPackage && entries[k].name == n;
        if k < |init| {
          assert init[k] == entries[k];
        }
      }
    }
  }

  /** The row order after get_or_create of each name in turn: a name
      already present keeps its row, a new one is added last. */
  function Registered(order: seq<string>, names: seq<string>): (r: seq<string>)
    ensures |order| <= |r|
    decreases |names|
  {
    if names == [] then order
    else
      var before := Registered(order, names[..|names| - 1]);
      var n := names[|names| - 1];
      if n in before then before else before + [n]
  }

  /** Registering keeps the rows unique, and afterwards exactly the old
      names and the given names have rows. */
  lemma {:induction false} RegisteredRows(order: seq<string>, names: seq<string>)
    requires NoDuplicates(order)
    ensures NoDuplicates(Registered(order, names))
    ensures forall n :: n in Registered(order, names) <==> n in order || n in names
    decreases |names|
  {
    if names != [] {
      var init := names[..|names| - 1];
      RegisteredRows(order, init);
      assert forall n :: n in init ==> n in names;
      assert names == init + [names[|names| - 1]];
    }
  }

  /** Existing rows keep their places; new rows come after them. */
  lemma {:induction false} RegisteredExtends(order: seq<string>, names: seq<string>)
    ensures Registered(order, names)[..|order|] == order
    decreases |names|
  {
    if names != [] {
      var before := Registered(order, names[..|names| - 1]);
      RegisteredExtends(order, names[..|names| - 1]);
      assert (before + [names[|names| - 1]])[..|order|] == before[..|order|];
    }
  }

  /** Listing the modules a second time adds no rows. */
  lemma RegisterIdempotent(order: seq<string>, names: seq<string>)
    requires NoDuplicates(order)
    ensures Registered(Registered(order, names), names) == Registered(order, names)
  {
    RegisteredRows(order, names);
    AlreadyRegistered(Registered(order, names), names);
  }

  /** Names that all have rows add none. */
  lemma {:induction false} AlreadyRegistered(order: seq<string>, names: seq<string>)
    requires forall n :: n in names ==> n in order
    ensures Registered(order, names) == order
    decreases |names|
  {
    if names != [] {
      var init := names[..|names| - 1];
      assert forall n :: n in init ==> n in names;
      AlreadyRegistered(order, init);
    }
  }

  /** The flags of existing rows are unchanged and every new row is not
      installed. */
  predicate FlagsKept(before: map<string, bool>, after: map<string, bool>) {
    && (forall n :: n in before ==> n in after && after[n] == before[n])
    && (forall n :: n in after && n !in before ==> !after[n])
  }

  lemma FlagsKeptTrans(a: map<string, bool>, b: map<string, bool>, c: map<string, bool>)
    requires FlagsKept(a, b) && FlagsKept(b, c)
    ensures FlagsKept(a, c)
  {
  }

  /** Registering one more name is registering it after the others. */
  lemma RegisteredSnoc(order: seq<string>, names: seq<string>, n: string)
    ensures Registered(order, names + [n]) == Registered(Registered(order, names), [n])
  {
    assert (names + [n])[..|names|] == names;
    assert [n][..0] == [];
  }

  /** The installed modules, in row order (Module.objects.filter(is_installed=True)). */
  function InstalledNames(order: seq<string>, installed: map<string, bool>): (names: seq<string>)
    ensures forall n :: n in names ==> n in order && n in installed && installed[n]
    decreases |order|
  {
    if order == [] then []
    else
      var n := order[|order| - 1];
      var init := InstalledNames(order[..|order| - 1], installed);
      if n in installed && installed[n] then init + [n] else init
  }

  lemma {:induction false} InstalledNamesComplete(order: seq<string>, installed: map<string, bool>, n: string)
    requires n in order && n in installed && installed[n]
    ensures n in InstalledNames(order, installed)
    decreases |order|
  {
    if order[|order| - 1] != n {
      assert n in order[..|order| - 1];
      InstalledNamesComplete(order[..|order| - 1], installed, n);
    }
  }

  lemma {:induction false} InstalledNamesUnique(order: seq<string>, installed: map<string, bool>)
    requires NoDuplicates(order)
    ensures NoDuplicates(InstalledNames(order, installed))
    decreases |order|
  {
    if order != [] {
      InstalledNamesUnique(order[..|order| - 1], installed);
    }
  }

  class ModuleTable {
    var order: seq<string>
    var installed: map<string, bool>

    /** One row per name, and a flag for exactly the names with rows. */
    ghost predicate Valid()
      reads this
    {
      NoDuplicates(order) && forall n :: n in installed <==> n in order
    }

    constructor ()
      ensures Valid() && order == [] && installed == map[]
    {
      order := [];
      installed := map[];
    }

    /** Module.objects.get_or_create(name=name): a new row starts
        uninstalled. */
    method GetOrCreate(name: string)
      requires Valid()
      modifies this
      ensures Valid()
      ensures order == Registered(old(order), [name])
      ensures installed == if name in old(installed) then old(installed) else old(installed)[name := false]
      ensures FlagsKept(old(installed), installed)
    {
      if name !in installed {
        order := order + [name];
        installed := installed[name := false];
      }
      assert [name][..0] == [];
    }

    /** The loop shared by both module_list views: every package directory
        gets its row, in directory order; none when the directory is
        missing. */
    method RegisterPackages(dirExists: bool, entries: seq<DirEntry>) returns (listed: seq<string>)
      requires Valid()
      modifies this
      ensures Valid()
      ensures listed == if dirExists then Packages(entries) else []
      ensures order == Registered(old(order), listed)
      ensures FlagsKept(old(installed), installed)
    {
      listed := [];
      if !dirExists {
        return;
      }
      var k := 0;
      while k < |entries|
        invariant 0 <= k <= |entries|
        invariant Valid()
        invariant listed == Packages(entries[..k])
        invariant order == Registered(old(order), listed)
        invariant FlagsKept(old(installed), installed)
      {
        var e := entries[k];
        assert entries[..k + 1][..k] == entries[..k];
        if e.isPackage {
          ghost var before := installed;
          GetOrCreate(e.name);
          FlagsKeptTrans(old(installed), before, installed);
          RegisteredSnoc(old(order), listed, e.name);
          listed := listed + [e.name];
        }
        k := k + 1;
      }
      assert entries[..|entries|] == entries;
    }

    /** module.is_installed = flag; module.save(). */
    method SetInstalled(name: string, flag: bool)
      requires Valid() && name in installed
      modifies this`installed
      ensures Valid() && installed == old(installed)[name := flag]
    {
      installed := installed[name := flag];
    }
  }
}
