/**
 * The v3 registry of installed tools. On disk it is a JSON document
 * `{"installed": {...}, "custom": {...}}`; here the file is a value the
 * store object holds, and each operation reloads it, edits it and writes it back.
 */
module StateStore {
  import opened Wrappers
  import opened Collections

  /** One registry entry: how and as what a tool was installed, and when. */
  datatype Record = Record(how: string, category: string, installedAt: string)

  type Table = map<string, Record>

  /** The loaded document; a top-level key the document lacks is `None`. */
  datatype Registry = Registry(installed: Option<Table>, custom: Option<Table>)

  /** What loading falls back to. */
  const EmptyRegistry: Registry := Registry(Some(map[]), Some(map[]))

  /** The state file: absent, present but not valid JSON, or a stored document. */
  datatype StateFile = Missing | Unparsable | Stored(registry: Registry)

  /** `load_state`: the stored document, or the empty registry when the file is missing or unparsable. */
  function Load(f: StateFile): (r: Registry)
    ensures f.Stored? ==> r == f.registry
    ensures !f.Stored? ==> r.installed == Some(map[]) && r.custom == Some(map[])
  {
    if f.Stored? then f.registry else EmptyRegistry
  }

  /** Reading back a saved document gives the document. */
  lemma LoadAfterSave(reg: Registry)
    ensures Load(Stored(reg)) == reg
  {
  }

  /**
   * The document after recording `name` as installed with `rec`; `None` when
   * the document has no "installed" table (the source raises a KeyError).
   */
  function WithInstalled(reg: Registry, name: string, rec: Record): (r: Option<Registry>)
    ensures r.None? <==> reg.installed.None?
    ensures r.Some? ==> r.value.custom == reg.custom && r.value.installed.Some?
    ensures r.Some? ==> name in r.value.installed.value && r.value.installed.value[name] == rec
    ensures r.Some? ==> forall n :: n != name ==>
      (n in r.value.installed.value <==> n in reg.installed.value)
      && (n in reg.installed.value ==> r.value.installed.value[n] == reg.installed.value[n])
  {
    match reg.installed
    case None => None
    case Some(t) => Some(reg.(installed := Some(t[name := rec])))
  }

  /**
   * The document after forgetting `name`: it leaves both tables, every other
   * entry stays; `None` when there is no "installed" table (a KeyError).
   */
  function WithoutTool(reg: Registry, name: string): (r: Option<Registry>)
    ensures r.None? <==> reg.installed.None?
    ensures r.Some? ==> r.value.installed.Some? && name !in r.value.installed.value
    ensures r.Some? ==> forall n :: n != name ==>
      (n in r.value.installed.value <==> n in reg.installed.value)
      && (n in reg.installed.value ==> r.value.installed.value[n] == reg.installed.value[n])
    ensures r.Some? ==> (r.value.custom.None? <==> reg.custom.None?)
    ensures r.Some? && reg.custom.Some? ==>
      name !in r.value.custom.value
      && forall n :: n != name ==>
        (n in r.value.custom.value <==> n in reg.custom.value)
        && (n in reg.custom.value ==> r.value.custom.value[n] == reg.custom.value[n])
  {
    match reg.installed
    case None => None
    case Some(t) =>
      var custom := match reg.custom
        case None => None
        case Some(c) => Some(if name in c then c - {name} else c);
      Some(Registry(Some(if name in t then t - {name} else t), custom))
  }

  /** Uninstalling twice is the same as uninstalling once. */
  lemma WithoutToolIdempotent(reg: Registry, name: string)
    requires reg.installed.Some?
    ensures WithoutTool(WithoutTool(reg, name).value, name) == WithoutTool(reg, name)
  {
  }

  /** Uninstalling a tool that is in neither table leaves the document as it was. */
  lemma WithoutAbsentTool(reg: Registry, name: string)
    requires reg.installed.Some? && name !in reg.installed.value
    requires reg.custom.Some? ==> name !in reg.custom.value
    ensures WithoutTool(reg, name) == Some(reg)
  {
  }

  /** Installing and then uninstalling a tool is the same as only uninstalling it. */
  lemma {:induction false} InstallThenUninstall(reg: Registry, name: string, rec: Record)
    requires reg.installed.Some?
    ensures WithoutTool(WithInstalled(reg, name, rec).value, name) == WithoutTool(reg, name)
  {
    var t := reg.installed.value;
    assert t[name := rec] - {name} == (if name in t then t - {name} else t);
  }

  /** The keys of an optional table; an absent table has none (`state.get(key, {})`). */
  function KeysOrNone(t: Option<Table>): set<string> {
    if t.Some? then t.value.Keys else {}
  }

  /** Recording a tool adds exactly its name to the keys of the "installed" table. */
  lemma WithInstalledKeys(reg: Registry, name: string, rec: Record)
    requires reg.installed.Some?
    ensures KeysOrNone(WithInstalled(reg, name, rec).value.installed) == KeysOrNone(reg.installed) + {name}
  {
  }

  /** What an operation of the store ended in. */
  datatype Outcome = Done | Raised(message: string)

  const InstalledKeyError := "KeyError: 'installed'"

  /** The store of the registry; `file` is the state file on disk. */
  class StateManager {
    var file: StateFile

    constructor(f: StateFile)
      ensures file == f
    {
      file := f;
    }

    /** The document as the next operation will load it. */
    function Current(): Registry
      reads this
    {
      Load(file)
    }

    /** `mark_installed`: record the tool and write the whole document back. */
    method MarkInstalled(name: string, how: string, category: string, stamp: string) returns (out: Outcome)
      modifies this
      ensures match WithInstalled(Load(old(file)), name, Record(how, category, stamp))
        case None => out == Raised(InstalledKeyError) && file == old(file)
        case Some(reg) => out == Done && file == Stored(reg)
    {
      var state := Load(file);
      match WithInstalled(state, name, Record(how, category, stamp))
      case None =>
        return Raised(InstalledKeyError);
      case Some(reg) =>
        file := Stored(reg);
        return Done;
    }

    /** `mark_uninstalled`: forget the tool and write the whole document back, also when it was absent. */
    method MarkUninstalled(name: string) returns (out: Outcome)
      modifies this
      ensures match WithoutTool(Load(old(file)), name)
        case None => out == Raised(InstalledKeyError) && file == old(file)
        case Some(reg) => out == Done && file == Stored(reg)
    {
      var state := Load(file);
      match WithoutTool(state, name)
      case None =>
        return Raised(InstalledKeyError);
      case Some(reg) =>
        file := Stored(reg);
        return Done;
    }

    /** `get_installed_tools`: the names in the "installed" table, each once. */
    method GetInstalledTools() returns (names: seq<string>)
      ensures NoDuplicates(names)
      ensures forall n :: n in names <==> n in KeysOrNone(Current().installed)
    {
      var t := Current().installed;
      names := KeysOf(if t.Some? then t.value else map[]);
    }

    /** `get_custom_tools`: the names in the "custom" table, each once. */
    method GetCustomTools() returns (names: seq<string>)
      ensures NoDuplicates(names)
      ensures forall n :: n in names <==> n in KeysOrNone(Current().custom)
    {
      var t := Current().custom;
      names := KeysOf(if t.Some? then t.value else map[]);
    }
  }
}
